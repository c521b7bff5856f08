/**
 * The legacy relational mapping: `create_sqlalchemy_types` of
 * strawberrysqlalchemy/strawchemy/sqlalchemy_mapper.py, which attaches
 * columns to the model dataclasses themselves, and the legacy manager's
 * `__create_sqlalchemy_types`, which builds a separate `<Name>Db` class per
 * model.  Both name a reference's foreign-key column after the target type.
 */
module LegacyMapping {
  import opened Wrappers
  import opened ModelTypes
  import opened SnakeCase
  import opened ModelValidation
  import opened RelationalMapping
  import Maps

  function LegacyVersion(db: bool): Mapping {
    if db then LegacyManager else LegacyModule
  }

  /** A reference to `T` attaches `snake_it(T)_id`, typed `Optional[int]`, with a foreign key to `snake_it(T).id` and no `ondelete`. */
  lemma LegacyReferenceFieldMapping(cs: seq<ModelClass>, db: bool, owner: string, f: Field, target: string)
    requires LegacyWellFormed(cs, f.ty) && f.name != "id" && f.ty == Model(target)
    ensures target in Names(cs)
    ensures var ws := LegacyWrites(cs, db, owner, f);
            |ws| == 2
            && ws[0].key == AttrKey(owner, SnakeItLegacy(target) + "_id")
            && ws[0].value == Column(None, false, Some(ForeignKey(SnakeItLegacy(target), None)), None, Opt(IntType))
            && ws[1].key == AttrKey(owner, f.name)
            && ws[1].value.Relationship? && ws[1].value.target == Holder(db, target)
            && ws[1].value.foreignKeyColumn.None?
            && (ws[1].value.lazy == Some("joined") <==> !db)
            && (!db ==> ws[1].value.lazy == Some("joined"))
  {
  }

  /** A list of `C` declared on `P` attaches `<snake_it(P)>_id`, typed `Optional[int]`, to `C`, with a foreign key to `P`'s table. */
  lemma LegacyListFieldMapping(cs: seq<ModelClass>, db: bool, owner: string, f: Field, child: string)
    requires LegacyWellFormed(cs, f.ty) && f.name != "id" && f.ty == ListOf(Model(child))
    ensures child in Names(cs)
    ensures var ws := LegacyWrites(cs, db, owner, f);
            |ws| == 2
            && ws[0].key == AttrKey(child, SnakeItLegacy(owner) + "_id")
            && ws[0].value == Column(None, false, Some(ForeignKey(SnakeItLegacy(owner), None)), None, Opt(IntType))
            && ws[1].key == AttrKey(owner, f.name)
            && ws[1].value.Relationship? && ws[1].value.target == Holder(db, child)
            && ws[1].value.cascade.None?
            && (ws[1].value.lazy == Some("joined") <==> !db)
            && ws[1].value.annotation.ListOf?
  {
  }

  /** A scalar field maps to its `MAPPED_TYPES` column, with no nullability given. */
  lemma LegacyScalarFieldMapping(cs: seq<ModelClass>, db: bool, owner: string, f: Field, k: ScalarKind)
    requires LegacyWellFormed(cs, f.ty) && f.name != "id" && f.ty == Scalar(k)
    ensures MappedType(k).Some?
    ensures LegacyWrites(cs, db, owner, f)
            == [Write(AttrKey(owner, f.name), Column(MappedType(k), false, None, None, f.ty))]
  {
  }

  /** `x + "_id"` determines `x`. */
  lemma SuffixCancels(a: string, b: string)
    requires a + "_id" == b + "_id"
    ensures a == b
  {
    assert |a| == |b|;
    assert a == (a + "_id")[..|a|];
    assert b == (b + "_id")[..|b|];
  }

  /**
   * Two reference fields to the same class write their foreign-key column
   * under one name in the legacy mapping: the second write replaces the first,
   * and neither relationship names the column it uses.
   */
  lemma LegacyReferencesShareColumn(cs: seq<ModelClass>, db: bool, owner: string, f: Field, g: Field, target: string)
    requires LegacyWellFormed(cs, f.ty) && LegacyWellFormed(cs, g.ty)
    requires f.name != "id" && g.name != "id" && f.name != g.name
    requires f.ty == Model(target) && g.ty == Model(target)
    requires f.name != SnakeItLegacy(target) + "_id" && g.name != SnakeItLegacy(target) + "_id"
    ensures LegacyWrites(cs, db, owner, f)[0].key == LegacyWrites(cs, db, owner, g)[0].key
    ensures LegacyWrites(cs, db, owner, f)[1].value.foreignKeyColumn.None?
    ensures LegacyWrites(cs, db, owner, g)[1].value.foreignKeyColumn.None?
    ensures var m := Applied(map[], LegacyWrites(cs, db, owner, f) + LegacyWrites(cs, db, owner, g));
            var col := LegacyWrites(cs, db, owner, f)[0].key;
            col in m && m[col] == LegacyWrites(cs, db, owner, g)[0].value
            && forall k :: k in m && m[k].Column? ==> k == col
  {
    LegacyReferenceFieldMapping(cs, db, owner, f, target);
    LegacyReferenceFieldMapping(cs, db, owner, g, target);
    SharedColumnWrites(LegacyWrites(cs, db, owner, f), LegacyWrites(cs, db, owner, g));
  }

  /** A column then a relationship, twice, with both columns under one key: one column survives, the second. */
  lemma SharedColumnWrites(a: seq<Write>, b: seq<Write>)
    requires |a| == 2 && |b| == 2 && a[0].key == b[0].key
    requires a[1].key != a[0].key && b[1].key != b[0].key
    requires a[1].value.Relationship? && b[1].value.Relationship?
    ensures var m := Applied(map[], a + b);
            a[0].key in m && m[a[0].key] == b[0].value
            && forall k :: k in m && m[k].Column? ==> k == a[0].key
  {
    AppliedAppend(map[], a, b);
    AppliedTwo(map[], a);
    AppliedTwo(Applied(map[], a), b);
  }

  /** The current mapping names each reference's column after its field, so two references never share one. */
  lemma CurrentReferencesSeparateColumns(cs: seq<ModelClass>, owner: string, f: Field, g: Field, target: string)
    requires WellFormedType(cs, f.ty) && WellFormedType(cs, g.ty)
    requires f.name != "id" && g.name != "id" && f.name != g.name
    requires f.ty == Model(target) && g.ty == Model(target)
    ensures CurrentWrites(cs, owner, f)[0].key != CurrentWrites(cs, owner, g)[0].key
    ensures CurrentWrites(cs, owner, f)[1].value.foreignKeyColumn == Some(CurrentWrites(cs, owner, f)[0].key)
    ensures CurrentWrites(cs, owner, g)[1].value.foreignKeyColumn == Some(CurrentWrites(cs, owner, g)[0].key)
  {
    ReferenceFieldMapping(cs, owner, f, target);
    ReferenceFieldMapping(cs, owner, g, target);
    if f.name + "_id" == g.name + "_id" {
      SuffixCancels(f.name, g.name);
    }
  }

  /** A two-reference class, `Transfer(id, source: Account, target: Account)`, shows the shared column. */
  lemma LegacyTransferExample()
    ensures var account := ModelClass("Account", [Field("id", IntType, false)], false);
            var source := Field("source", Model("Account"), false);
            var target := Field("target", Model("Account"), false);
            LegacyWrites([account], false, "Transfer", source)[0].key
            == LegacyWrites([account], false, "Transfer", target)[0].key
            == AttrKey("Transfer", "account_id")
  {
    var account := ModelClass("Account", [Field("id", IntType, false)], false);
    assert Names([account]) == ["Account"];
    LegacyCapitalisedSnaked("Account", "account");
  }

  lemma LegacyCapitalisedSnaked(w: string, lower: string)
    requires |w| == |lower| && |w| > 0 && IsUpper(w[0]) && lower[0] == ToLower(w[0])
    requires forall i :: 1 <= i < |w| ==> 'a' <= w[i] <= 'z' && lower[i] == w[i]
    ensures SnakeItLegacy(w) == lower
  {
    SnakeItLegacyCapitalisedWord(w);
  }

  lemma LegacyFieldWrites(cs: seq<ModelClass>, db: bool, owner: string, f: Field)
    requires Accepts(LegacyVersion(db), cs, f.ty)
    ensures LegacyWellFormed(cs, f.ty)
    ensures FieldWrites(LegacyVersion(db), cs, owner, f) == LegacyWrites(cs, db, owner, f)
  {
  }

  lemma LegacyValidatedIsAccepted(cs: seq<ModelClass>, db: bool)
    requires ValidateModelClassesLegacy(cs).Pass?
    ensures ClassesAccepted(LegacyVersion(db), cs, cs)
  {
    LegacyValidationPassesIffValid(cs);
    forall k | 0 <= k < |cs| ensures FieldsAccepted(LegacyVersion(db), cs, cs[k].fields) { }
  }

  /** `__tablename__` of every model class, or of its `<Name>Db` class; the legacy `snake_it` is used. */
  function LegacyTableNames(cs: seq<ModelClass>): (r: map<string, string>)
    ensures r.Keys == set c | c in cs :: c.name
    ensures forall c :: c in cs ==> r[c.name] == SnakeItLegacy(c.name)
  {
    if cs == [] then map[]
    else
      var n := |cs| - 1;
      assert forall c :: c in cs <==> c in cs[..n] || c == cs[n];
      LegacyTableNames(cs[..n])[cs[n].name := SnakeItLegacy(cs[n].name)]
  }

  lemma LegacyTableNamesStep(cs: seq<ModelClass>, i: nat, t: map<string, string>)
    requires i < |cs|
    ensures (t + LegacyTableNames(cs[..i]))[cs[i].name := SnakeItLegacy(cs[i].name)]
            == t + LegacyTableNames(cs[..i + 1])
  {
    assert cs[..i + 1][..i] == cs[..i];
    Maps.MergeUpdate(t, LegacyTableNames(cs[..i]), cs[i].name, SnakeItLegacy(cs[i].name));
  }

  function HolderNames(db: bool, cs: seq<ModelClass>): (r: seq<string>)
    ensures |r| == |cs| && forall i :: 0 <= i < |cs| ==> r[i] == Holder(db, cs[i].name)
  {
    seq(|cs|, i requires 0 <= i < |cs| => Holder(db, cs[i].name))
  }

  /** The state the legacy mappers change: table names, attributes with annotations, and the registry. */
  class LegacyMapper {
    var tableNames: map<string, string>
    var attrs: map<AttrKey, Attr>
    var registered: seq<string>

    constructor ()
      ensures tableNames == map[] && attrs == map[] && registered == []
    {
      tableNames := map[];
      attrs := map[];
      registered := [];
    }

    /**
     * The legacy module's `create_sqlalchemy_types`: for each dataclass in
     * turn, its table name and then its fields; registration after all.
     */
    method CreateSqlalchemyTypes(listed: seq<ModelClass>)
      modifies this
      requires ValidateModelClassesLegacy(listed).Pass?
      ensures ClassesAccepted(LegacyModule, listed, listed)
      ensures tableNames == old(tableNames) + LegacyTableNames(listed)
      ensures attrs == Applied(old(attrs), AllWrites(LegacyModule, listed, listed))
      ensures registered == old(registered) + HolderNames(false, listed)
    {
      LegacyValidatedIsAccepted(listed, false);
      MapModelClasses(listed);
      Register(listed, false);
    }

    /** The first loop of `create_sqlalchemy_types`: each class's table name, then its fields. */
    method MapModelClasses(listed: seq<ModelClass>)
      modifies this
      requires ClassesAccepted(LegacyModule, listed, listed)
      ensures tableNames == old(tableNames) + LegacyTableNames(listed)
      ensures attrs == Applied(old(attrs), AllWrites(LegacyModule, listed, listed))
      ensures registered == old(registered)
    {
      var i := 0;
      while i < |listed|
        invariant i <= |listed|
        invariant tableNames == old(tableNames) + LegacyTableNames(listed[..i])
        invariant attrs == Applied(old(attrs), AllWrites(LegacyModule, listed, listed[..i]))
        invariant registered == old(registered)
      {
        LegacyTableNamesStep(listed, i, old(tableNames));
        AllWritesStep(LegacyModule, listed, i, old(attrs));
        tableNames := tableNames[listed[i].name := SnakeItLegacy(listed[i].name)];
        MapClass(listed, false, i);
        i := i + 1;
      }
      assert listed[..i] == listed;
    }

    /**
     * The legacy manager's `__create_sqlalchemy_types`: a first pass creates
     * every `<Name>Db` class with its table name, a second attaches the
     * columns, a third registers the `Db` classes.
     */
    method CreateDbTypes(listed: seq<ModelClass>)
      modifies this
      requires ValidateModelClassesLegacy(listed).Pass?
      ensures ClassesAccepted(LegacyManager, listed, listed)
      ensures tableNames == old(tableNames) + LegacyTableNames(listed)
      ensures attrs == Applied(old(attrs), AllWrites(LegacyManager, listed, listed))
      ensures registered == old(registered) + HolderNames(true, listed)
    {
      LegacyValidatedIsAccepted(listed, true);
      CreateDbClasses(listed);
      var i := 0;
      while i < |listed|
        invariant i <= |listed|
        invariant tableNames == old(tableNames) + LegacyTableNames(listed)
        invariant attrs == Applied(old(attrs), AllWrites(LegacyManager, listed, listed[..i]))
        invariant registered == old(registered)
      {
        AllWritesStep(LegacyManager, listed, i, old(attrs));
        MapClass(listed, true, i);
        i := i + 1;
      }
      assert listed[..i] == listed;
      Register(listed, true);
    }

    /** The first pass of the manager's version: a `<Name>Db` class with its table name per model. */
    method CreateDbClasses(listed: seq<ModelClass>)
      modifies this
      ensures tableNames == old(tableNames) + LegacyTableNames(listed)
      ensures attrs == old(attrs) && registered == old(registered)
    {
      var i := 0;
      while i < |listed|
        invariant i <= |listed|
        invariant tableNames == old(tableNames) + LegacyTableNames(listed[..i])
        invariant attrs == old(attrs) && registered == old(registered)
      {
        LegacyTableNamesStep(listed, i, old(tableNames));
        tableNames := tableNames[listed[i].name := SnakeItLegacy(listed[i].name)];
        i := i + 1;
      }
      assert listed[..i] == listed;
    }

    /** The registration loop, over the classes that received the columns. */
    method Register(listed: seq<ModelClass>, db: bool)
      modifies this
      ensures tableNames == old(tableNames) && attrs == old(attrs)
      ensures registered == old(registered) + HolderNames(db, listed)
    {
      ghost var before := registered;
      var k := 0;
      while k < |listed|
        invariant k <= |listed|
        invariant tableNames == old(tableNames) && attrs == old(attrs)
        invariant |registered| == |before| + k && registered[..|before|] == before
        invariant forall p :: 0 <= p < k ==> registered[|before| + p] == Holder(db, listed[p].name)
      {
        registered := registered + [if db then listed[k].name + "Db" else listed[k].name];
        k := k + 1;
      }
      assert registered == before + HolderNames(db, listed);
    }

    /** The fields of class `i`, in order. */
    method MapClass(listed: seq<ModelClass>, db: bool, i: nat)
      modifies this
      requires i < |listed| && FieldsAccepted(LegacyVersion(db), listed, listed[i].fields)
      ensures tableNames == old(tableNames) && registered == old(registered)
      ensures attrs == Applied(old(attrs), ClassWrites(LegacyVersion(db), listed, listed[i].name, listed[i].fields))
    {
      var c := listed[i];
      var fs := c.fields;
      var j := 0;
      while j < |fs|
        invariant j <= |fs|
        invariant tableNames == old(tableNames) && registered == old(registered)
        invariant attrs == Applied(old(attrs), ClassWrites(LegacyVersion(db), listed, c.name, fs[..j]))
      {
        AttachNext(listed, db, c.name, fs, j, old(attrs));
        j := j + 1;
      }
      assert fs[..j] == fs;
    }

    /** One turn of the loop over the fields: field `j` after the `j` before it. */
    method AttachNext(listed: seq<ModelClass>, db: bool, owner: string, fs: seq<Field>, j: nat, ghost m: map<AttrKey, Attr>)
      modifies this
      requires j < |fs| && FieldsAccepted(LegacyVersion(db), listed, fs)
      requires FieldsAccepted(LegacyVersion(db), listed, fs[..j])
      requires attrs == Applied(m, ClassWrites(LegacyVersion(db), listed, owner, fs[..j]))
      ensures FieldsAccepted(LegacyVersion(db), listed, fs[..j + 1])
      ensures attrs == Applied(m, ClassWrites(LegacyVersion(db), listed, owner, fs[..j + 1]))
      ensures tableNames == old(tableNames) && registered == old(registered)
    {
      ClassWritesStep(LegacyVersion(db), listed, owner, fs, j, m);
      LegacyFieldWrites(listed, db, owner, fs[j]);
      AttachField(listed, db, owner, fs[j]);
    }

    /** The `setattr`s and annotations for one field. */
    method AttachField(listed: seq<ModelClass>, db: bool, owner: string, field: Field)
      modifies this
      requires LegacyWellFormed(listed, field.ty)
      ensures tableNames == old(tableNames) && registered == old(registered)
      ensures attrs == Applied(old(attrs), LegacyWrites(listed, db, owner, field))
    {
      ghost var ws := LegacyWrites(listed, db, owner, field);
      var lazy := if db then None else Some("joined");
      if field.name == "id" {
        attrs := attrs[AttrKey(owner, "id") := Column(None, true, None, None, IntType)];
        AppliedOne(old(attrs), ws);
      } else if field.ty.Model? && field.ty.name in Names(listed) {
        var table := SnakeItLegacy(field.ty.name);
        var target := if db then field.ty.name + "Db" else field.ty.name;
        attrs := attrs[AttrKey(owner, table + "_id") :=
          Column(None, false, Some(ForeignKey(table, None)), None, Opt(IntType))];
        attrs := attrs[AttrKey(owner, field.name) :=
          Relationship(target, None, None, lazy, if db then Generated(target) else field.ty)];
        AppliedTwo(old(attrs), ws);
      } else if field.ty.ListOf? {
        var table := SnakeItLegacy(owner);
        var child := field.ty.elem.name;
        var target := if db then child + "Db" else child;
        attrs := attrs[AttrKey(child, table + "_id") :=
          Column(None, false, Some(ForeignKey(table, None)), None, Opt(IntType))];
        attrs := attrs[AttrKey(owner, field.name) :=
          Relationship(target, None, None, lazy, ListOf(if db then Generated(target) else field.ty.elem))];
        AppliedTwo(old(attrs), ws);
      } else {
        attrs := attrs[AttrKey(owner, field.name) := Column(MappedType(field.ty.kind), false, None, None, field.ty)];
        AppliedOne(old(attrs), ws);
      }
    }
  }
}
