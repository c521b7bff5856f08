/**
 * `create_sqlalchemy_types` of strawchemy/sqlalchemy_mapper.py: attaches a
 * table name, columns, foreign keys and relationships to every validated
 * model class, then registers the classes.  SQLAlchemy's `mapped_column`,
 * `ForeignKey` and `relationship` objects are replaced by plain descriptors;
 * a `setattr` together with its `__annotations__` entry is one write of an
 * `Attr` under the key (class, attribute name).
 */
module RelationalMapping {
  import opened Wrappers
  import opened ModelTypes
  import opened SnakeCase
  import opened ModelValidation
  import opened Fixtures
  import Maps

  /** `ForeignKey("<table>.id", ondelete=...)`: every foreign key targets an `id` column. */
  datatype ForeignKey = ForeignKey(table: string, onDelete: Option<string>)

  /** An attribute name on a class. */
  datatype AttrKey = AttrKey(owner: string, name: string)

  /**
   * What a `setattr` attaches, together with the `Mapped[...]` annotation it is
   * given (`annotation` is the type inside `Mapped[...]`).
   */
  datatype Attr =
    | Column(sqlType: Option<SqlType>, primaryKey: bool, foreignKey: Option<ForeignKey>,
             nullable: Option<bool>, annotation: Ty)
    | Relationship(target: string, cascade: Option<string>, foreignKeyColumn: Option<AttrKey>,
                   lazy: Option<string>, annotation: Ty)

  datatype Write = Write(key: AttrKey, value: Attr)

  const AllDelete: string := "all, delete"
  const Cascade: string := "CASCADE"

  // ---------------------------------------------------------------------
  // The Optional wrapper stripped in place

  /** `field.type = field.type.of_type` for an Optional field; nothing else of the field changes. */
  function StripField(f: Field): (r: Field)
    ensures r.name == f.name && r.defaultNone == f.defaultNone
    ensures f.ty.Opt? ==> r.ty == f.ty.inner
    ensures !f.ty.Opt? ==> r == f
  {
    if f.ty.Opt? then f.(ty := f.ty.inner) else f
  }

  function StripFields(fs: seq<Field>): (r: seq<Field>)
    ensures |r| == |fs| && forall j :: 0 <= j < |fs| ==> r[j] == StripField(fs[j])
  {
    seq(|fs|, j requires 0 <= j < |fs| => StripField(fs[j]))
  }

  function StripClass(c: ModelClass): ModelClass {
    c.(fields := StripFields(c.fields))
  }

  function StripAll(cs: seq<ModelClass>): (r: seq<ModelClass>)
    ensures |r| == |cs| && forall i :: 0 <= i < |cs| ==> r[i] == StripClass(cs[i])
  {
    seq(|cs|, i requires 0 <= i < |cs| => StripClass(cs[i]))
  }

  /** Field `j` of class `i`, after the mapping, in terms of the declared field. */
  lemma StripAllAt(cs: seq<ModelClass>, i: nat, j: nat)
    requires i < |cs| && j < |cs[i].fields|
    ensures j < |StripAll(cs)[i].fields| && StripAll(cs)[i].fields[j] == StripField(cs[i].fields[j])
  {
  }

  /**
   * After the mapping of a validated list no field of any class is Optional;
   * names, defaults, field order and the classes themselves are unchanged.
   */
  lemma StrippedModelHasNoOptional(cs: seq<ModelClass>)
    requires ValidModel(cs)
    ensures |StripAll(cs)| == |cs|
    ensures forall i :: 0 <= i < |cs| ==>
              StripAll(cs)[i].name == cs[i].name && StripAll(cs)[i].lookup == cs[i].lookup
              && |StripAll(cs)[i].fields| == |cs[i].fields|
    ensures forall i, j :: 0 <= i < |cs| && 0 <= j < |cs[i].fields| ==>
              !StripAll(cs)[i].fields[j].ty.Opt?
              && StripAll(cs)[i].fields[j].name == cs[i].fields[j].name
  {
    forall i, j | 0 <= i < |cs| && 0 <= j < |cs[i].fields|
      ensures !StripAll(cs)[i].fields[j].ty.Opt?
    {
      assert WellFormedType(cs, cs[i].fields[j].ty);
    }
  }

  // ---------------------------------------------------------------------
  // The writes of one field

  /**
   * The attributes one field attaches, in the order the source attaches
   * them: the primary key for `id`; for a reference to a listed class `T`, the
   * column `<field>_id` with a foreign key to `snake_it(T).id` and then the
   * relationship; for a list of `C`, the back-reference column
   * `<tablename>_id` on `C` and then the relationship on the owner; otherwise a
   * scalar column.
   */
  function CurrentWrites(cs: seq<ModelClass>, owner: string, f: Field): (r: seq<Write>)
    requires WellFormedType(cs, f.ty)
    ensures 1 <= |r| <= 2
    ensures r[|r| - 1].key == AttrKey(owner, f.name)
  {
    var isOptional := f.ty.Opt?;
    var t := StripField(f).ty;
    if f.name == "id" then
      [Write(AttrKey(owner, "id"), Column(None, true, None, None, IntType))]
    else if IsListedModel(cs, t) then
      var column := f.name + "_id";
      var onDelete := if CarriesLookup(cs, t.name) then None else Some(Cascade);
      [Write(AttrKey(owner, column),
             Column(None, false, Some(ForeignKey(SnakeIt(t.name), onDelete)), None,
                    if isOptional then Opt(IntType) else IntType)),
       Write(AttrKey(owner, f.name),
             Relationship(t.name, None, Some(AttrKey(owner, column)), None,
                          if isOptional then Opt(t) else t))]
    else if t.ListOf? then
      var child := t.elem.name;
      var column := SnakeIt(owner) + "_id";
      var cascade := if CarriesLookup(cs, child) then None else Some(AllDelete);
      [Write(AttrKey(child, column),
             Column(None, false, Some(ForeignKey(SnakeIt(owner), if cascade.Some? then Some(Cascade) else None)),
                    None, IntType)),
       Write(AttrKey(owner, f.name),
             Relationship(child, cascade, Some(AttrKey(child, column)), None,
                          if isOptional then Opt(t) else t))]
    else
      [Write(AttrKey(owner, f.name),
             Column(MappedType(t.kind), false, None, Some(isOptional), if isOptional then Opt(t) else t))]
  }

  /**
   * The class a legacy relationship targets: the model class itself, or its
   * generated `<Name>Db` class.  Attribute keys stay the model's name in both
   * versions: in the manager's version the attributes of `AttrKey(n, _)` are
   * those of the class `<n>Db`.
   */
  function Holder(db: bool, n: string): string {
    if db then n + "Db" else n
  }

  /**
   * The legacy per-field writes.  A reference to `T` adds the column
   * `snake_it(T)_id`, named after the target type, typed `Optional[int]`, with a
   * foreign key to `snake_it(T).id` and no `ondelete`; a list of `C` adds
   * `<tablename>_id` to `C`; the relationships are placed on the declaring
   * type, with `lazy="joined"` in the module version and with no options in
   * the manager's `Db` version.  The legacy `snake_it` has no underscore
   * look-behind.
   */
  function LegacyWrites(cs: seq<ModelClass>, db: bool, owner: string, f: Field): (r: seq<Write>)
    requires LegacyWellFormed(cs, f.ty)
    ensures 1 <= |r| <= 2
    ensures r[|r| - 1].key == AttrKey(owner, f.name)
  {
    var lazy := if db then None else Some("joined");
    if f.name == "id" then
      [Write(AttrKey(owner, "id"), Column(None, true, None, None, IntType))]
    else if IsListedModel(cs, f.ty) then
      var table := SnakeItLegacy(f.ty.name);
      [Write(AttrKey(owner, table + "_id"),
             Column(None, false, Some(ForeignKey(table, None)), None, Opt(IntType))),
       Write(AttrKey(owner, f.name),
             Relationship(Holder(db, f.ty.name), None, None, lazy,
                          if db then Generated(Holder(db, f.ty.name)) else f.ty))]
    else if f.ty.ListOf? then
      var child := f.ty.elem.name;
      var table := SnakeItLegacy(owner);
      [Write(AttrKey(child, table + "_id"),
             Column(None, false, Some(ForeignKey(table, None)), None, Opt(IntType))),
       Write(AttrKey(owner, f.name),
             Relationship(Holder(db, child), None, None, lazy,
                          ListOf(if db then Generated(Holder(db, child)) else f.ty.elem)))]
    else
      [Write(AttrKey(owner, f.name), Column(MappedType(f.ty.kind), false, None, None, f.ty))]
  }

  /** The `id` field becomes the primary-key column, typed `int`. */
  lemma IdFieldMapping(cs: seq<ModelClass>, owner: string, f: Field)
    requires WellFormedType(cs, f.ty) && f.name == "id"
    ensures CurrentWrites(cs, owner, f) == [Write(AttrKey(owner, "id"), Column(None, true, None, None, IntType))]
  {
  }

  /**
   * A reference `f` to listed class `T`, bare or Optional: a column `f_id` whose
   * foreign key targets `snake_it(T).id`, with `ondelete` None exactly when `T`
   * is a lookup type and "CASCADE" otherwise, typed `Optional[int]` exactly
   * when the field was Optional; then the relationship to `T` through that
   * column, typed Optional exactly when the field was.
   */
  lemma ReferenceFieldMapping(cs: seq<ModelClass>, owner: string, f: Field, target: string)
    requires WellFormedType(cs, f.ty) && f.name != "id"
    requires f.ty == Model(target) || f.ty == Opt(Model(target))
    ensures target in Names(cs)
    ensures var ws := CurrentWrites(cs, owner, f);
            |ws| == 2
            && ws[0].key == AttrKey(owner, f.name + "_id")
            && ws[0].value.Column? && !ws[0].value.primaryKey
            && ws[0].value.foreignKey.Some?
            && ws[0].value.foreignKey.value.table == SnakeIt(target)
            && (ws[0].value.foreignKey.value.onDelete.None? <==> CarriesLookup(cs, target))
            && (ws[0].value.foreignKey.value.onDelete.Some? ==> ws[0].value.foreignKey.value.onDelete.value == "CASCADE")
            && (ws[0].value.annotation == Opt(IntType) <==> f.ty.Opt?)
            && (!f.ty.Opt? ==> ws[0].value.annotation == IntType)
            && ws[1].key == AttrKey(owner, f.name)
            && ws[1].value.Relationship? && ws[1].value.target == target
            && ws[1].value.foreignKeyColumn == Some(ws[0].key)
            && ws[1].value.annotation == (if f.ty.Opt? then Opt(Model(target)) else Model(target))
  {
  }

  /**
   * A list of `C` declared on `P`: `C` gets the column `<snake_it(P)>_id`, typed
   * `int`, with a foreign key to `snake_it(P).id`; the relationship on `P` has
   * cascade None when `C` is a lookup type and "all, delete" otherwise, and the
   * foreign key deletes in cascade exactly when that cascade is set.
   */
  lemma ListFieldMapping(cs: seq<ModelClass>, owner: string, f: Field, child: string)
    requires WellFormedType(cs, f.ty) && f.name != "id"
    requires f.ty == ListOf(Model(child))
    ensures child in Names(cs)
    ensures var ws := CurrentWrites(cs, owner, f);
            |ws| == 2
            && ws[0].key == AttrKey(child, SnakeIt(owner) + "_id")
            && ws[0].value.Column? && ws[0].value.annotation == IntType
            && ws[0].value.foreignKey.Some?
            && ws[0].value.foreignKey.value.table == SnakeIt(owner)
            && ws[1].key == AttrKey(owner, f.name)
            && ws[1].value.Relationship? && ws[1].value.target == child
            && ws[1].value.foreignKeyColumn == Some(ws[0].key)
            && (ws[1].value.cascade.None? <==> CarriesLookup(cs, child))
            && (ws[1].value.cascade.Some? ==> ws[1].value.cascade.value == "all, delete")
            && (ws[0].value.foreignKey.value.onDelete.Some? <==> ws[1].value.cascade.Some?)
            && (ws[0].value.foreignKey.value.onDelete.Some? ==> ws[0].value.foreignKey.value.onDelete.value == "CASCADE")
            && ws[1].value.annotation == ListOf(Model(child))
  {
  }

  /** A scalar field, bare or Optional, becomes a column of its mapped SQL type, nullable exactly when Optional. */
  lemma ScalarFieldMapping(cs: seq<ModelClass>, owner: string, f: Field, k: ScalarKind)
    requires WellFormedType(cs, f.ty) && f.name != "id"
    requires f.ty == Scalar(k) || f.ty == Opt(Scalar(k))
    ensures MappedType(k).Some?
    ensures var ws := CurrentWrites(cs, owner, f);
            |ws| == 1 && ws[0].key == AttrKey(owner, f.name)
            && ws[0].value.Column? && ws[0].value.sqlType == MappedType(k)
            && !ws[0].value.primaryKey && ws[0].value.foreignKey.None?
            && ws[0].value.nullable == Some(f.ty.Opt?)
            && ws[0].value.annotation == f.ty
  {
  }

  // ---------------------------------------------------------------------
  // The two versions of the mapper, and all writes in order

  /**
   * Which `create_sqlalchemy_types` is meant: the current one, the legacy
   * module strawberrysqlalchemy/strawchemy/sqlalchemy_mapper.py, or the legacy
   * manager's private variant, which maps onto separate `<Name>Db` classes.
   */
  datatype Mapping = Current | LegacyModule | LegacyManager

  /** The field types each version's validator lets through. */
  predicate Accepts(mp: Mapping, cs: seq<ModelClass>, t: Ty) {
    if mp.Current? then WellFormedType(cs, t) else LegacyWellFormed(cs, t)
  }

  function FieldWrites(mp: Mapping, cs: seq<ModelClass>, owner: string, f: Field): (r: seq<Write>)
    requires Accepts(mp, cs, f.ty)
  {
    match mp
    case Current => CurrentWrites(cs, owner, f)
    case LegacyModule => LegacyWrites(cs, false, owner, f)
    case LegacyManager => LegacyWrites(cs, true, owner, f)
  }

  predicate FieldsAccepted(mp: Mapping, cs: seq<ModelClass>, fs: seq<Field>) {
    forall j :: 0 <= j < |fs| ==> Accepts(mp, cs, fs[j].ty)
  }

  predicate ClassesAccepted(mp: Mapping, cs: seq<ModelClass>, ts: seq<ModelClass>) {
    forall i :: 0 <= i < |ts| ==> FieldsAccepted(mp, cs, ts[i].fields)
  }

  /** The writes of a class's fields in declaration order. */
  function ClassWrites(mp: Mapping, cs: seq<ModelClass>, owner: string, fs: seq<Field>): seq<Write>
    requires FieldsAccepted(mp, cs, fs)
  {
    if fs == [] then []
    else ClassWrites(mp, cs, owner, fs[..|fs| - 1]) + FieldWrites(mp, cs, owner, fs[|fs| - 1])
  }

  /** The writes of the classes `ts` in list order. */
  function AllWrites(mp: Mapping, cs: seq<ModelClass>, ts: seq<ModelClass>): seq<Write>
    requires ClassesAccepted(mp, cs, ts)
  {
    if ts == [] then []
    else AllWrites(mp, cs, ts[..|ts| - 1]) + ClassWrites(mp, cs, ts[|ts| - 1].name, ts[|ts| - 1].fields)
  }

  function WrittenKeys(ws: seq<Write>): set<AttrKey> {
    set w | w in ws :: w.key
  }

  /** The attributes after the writes `ws`, in order, on top of `m`; a later write to a key replaces an earlier one. */
  function Applied(m: map<AttrKey, Attr>, ws: seq<Write>): (r: map<AttrKey, Attr>)
    ensures r.Keys == m.Keys + WrittenKeys(ws)
    ensures forall k :: k in m && k !in WrittenKeys(ws) ==> r[k] == m[k]
    decreases ws
  {
    if ws == [] then m
    else
      assert WrittenKeys(ws) == {ws[0].key} + WrittenKeys(ws[1..]) by {
        assert forall w :: w in ws <==> w == ws[0] || w in ws[1..];
      }
      Applied(m[ws[0].key := ws[0].value], ws[1..])
  }

  lemma {:induction false} AppliedAppend(m: map<AttrKey, Attr>, a: seq<Write>, b: seq<Write>)
    ensures Applied(m, a + b) == Applied(Applied(m, a), b)
    decreases a
  {
    if a == [] {
      assert a + b == b;
    } else {
      var ab := a + b;
      assert ab[0] == a[0] && ab[1..] == a[1..] + b;
      calc {
        Applied(m, ab);
        Applied(m[a[0].key := a[0].value], a[1..] + b);
        { AppliedAppend(m[a[0].key := a[0].value], a[1..], b); }
        Applied(Applied(m[a[0].key := a[0].value], a[1..]), b);
      }
    }
  }

  lemma AppliedOne(m: map<AttrKey, Attr>, ws: seq<Write>)
    requires |ws| == 1
    ensures Applied(m, ws) == m[ws[0].key := ws[0].value]
  {
  }

  lemma AppliedTwo(m: map<AttrKey, Attr>, ws: seq<Write>)
    requires |ws| == 2
    ensures Applied(m, ws) == m[ws[0].key := ws[0].value][ws[1].key := ws[1].value]
  {
    assert ws[1..][1..] == [];
  }

  /** Every write of field `j` is among the writes of its class. */
  lemma {:induction false} FieldWritesInClass(mp: Mapping, cs: seq<ModelClass>, owner: string, fs: seq<Field>, j: nat)
    requires FieldsAccepted(mp, cs, fs) && j < |fs|
    ensures forall w :: w in FieldWrites(mp, cs, owner, fs[j]) ==> w in ClassWrites(mp, cs, owner, fs)
  {
    var n := |fs| - 1;
    assert FieldsAccepted(mp, cs, fs[..n]);
    if j < n {
      FieldWritesInClass(mp, cs, owner, fs[..n], j);
    }
  }

  /** Every write of class `i` is among the writes of the whole list. */
  lemma {:induction false} ClassWritesInAll(mp: Mapping, cs: seq<ModelClass>, ts: seq<ModelClass>, i: nat)
    requires ClassesAccepted(mp, cs, ts) && i < |ts|
    ensures forall w :: w in ClassWrites(mp, cs, ts[i].name, ts[i].fields) ==> w in AllWrites(mp, cs, ts)
  {
    var n := |ts| - 1;
    assert ClassesAccepted(mp, cs, ts[..n]);
    if i < n {
      ClassWritesInAll(mp, cs, ts[..n], i);
    }
  }

  /** Every write of the whole list comes from the fields of a listed class. */
  lemma {:induction false} AllWritesFromFields(mp: Mapping, cs: seq<ModelClass>, ts: seq<ModelClass>, w: Write)
    requires ClassesAccepted(mp, cs, ts) && w in AllWrites(mp, cs, ts)
    ensures exists i, j :: 0 <= i < |ts| && 0 <= j < |ts[i].fields|
              && w in FieldWrites(mp, cs, ts[i].name, ts[i].fields[j])
  {
    var n := |ts| - 1;
    assert ClassesAccepted(mp, cs, ts[..n]);
    if w in AllWrites(mp, cs, ts[..n]) {
      AllWritesFromFields(mp, cs, ts[..n], w);
      var i, j :| 0 <= i < |ts[..n]| && 0 <= j < |ts[..n][i].fields|
              && w in FieldWrites(mp, cs, ts[..n][i].name, ts[..n][i].fields[j]);
      assert ts[..n][i] == ts[i];
    } else {
      ClassWritesFromFields(mp, cs, ts[n].name, ts[n].fields, w);
    }
  }

  lemma {:induction false} ClassWritesFromFields(mp: Mapping, cs: seq<ModelClass>, owner: string, fs: seq<Field>, w: Write)
    requires FieldsAccepted(mp, cs, fs) && w in ClassWrites(mp, cs, owner, fs)
    ensures exists j :: 0 <= j < |fs| && w in FieldWrites(mp, cs, owner, fs[j])
  {
    var n := |fs| - 1;
    assert FieldsAccepted(mp, cs, fs[..n]);
    if w in ClassWrites(mp, cs, owner, fs[..n]) {
      ClassWritesFromFields(mp, cs, owner, fs[..n], w);
      var j :| 0 <= j < |fs[..n]| && w in FieldWrites(mp, cs, owner, fs[..n][j]);
      assert fs[..n][j] == fs[j];
    }
  }

  // ---------------------------------------------------------------------
  // Properties of the finished mapping

  /**
   * Every field of every listed class is attached under its own name; a
   * reference field also attaches its `<field>_id` column, and a list field
   * attaches the `<tablename>_id` column on its child class.
   */
  lemma MappingAttachesEveryField(cs: seq<ModelClass>, m: map<AttrKey, Attr>, i: nat, j: nat)
    requires ValidModel(cs) && i < |cs| && j < |cs[i].fields|
    ensures ClassesAccepted(Current, cs, cs)
    ensures var r := Applied(m, AllWrites(Current, cs, cs)); var f := cs[i].fields[j];
            AttrKey(cs[i].name, f.name) in r
            && (f.name != "id" && (f.ty.Model? || (f.ty.Opt? && f.ty.inner.Model?)) ==>
                  AttrKey(cs[i].name, f.name + "_id") in r)
            && (f.name != "id" && f.ty.ListOf? ==>
                  AttrKey(f.ty.elem.name, SnakeIt(cs[i].name) + "_id") in r)
  {
    var f := cs[i].fields[j];
    ValidModelAccepted(cs);
    var ws := FieldWrites(Current, cs, cs[i].name, f);
    FieldWritesInClass(Current, cs, cs[i].name, cs[i].fields, j);
    ClassWritesInAll(Current, cs, cs, i);
    CurrentWritesKeys(cs, cs[i].name, f);
    WrittenKeysGrow(ws, AllWrites(Current, cs, cs));
  }

  lemma ValidModelAccepted(cs: seq<ModelClass>)
    requires ValidModel(cs)
    ensures ClassesAccepted(Current, cs, cs)
  {
    forall k | 0 <= k < |cs| ensures FieldsAccepted(Current, cs, cs[k].fields) { }
  }

  /** The keys one field writes: its own name, and the column of a reference or a list. */
  lemma CurrentWritesKeys(cs: seq<ModelClass>, owner: string, f: Field)
    requires WellFormedType(cs, f.ty)
    ensures var ks := WrittenKeys(CurrentWrites(cs, owner, f));
            AttrKey(owner, f.name) in ks
            && (f.name != "id" && (f.ty.Model? || (f.ty.Opt? && f.ty.inner.Model?)) ==> AttrKey(owner, f.name + "_id") in ks)
            && (f.name != "id" && f.ty.ListOf? ==> AttrKey(f.ty.elem.name, SnakeIt(owner) + "_id") in ks)
  {
    var ws := CurrentWrites(cs, owner, f);
    assert ws[0] in ws;
    assert ws[|ws| - 1] in ws;
  }

  lemma WrittenKeysGrow(ws: seq<Write>, vs: seq<Write>)
    requires forall w :: w in ws ==> w in vs
    ensures WrittenKeys(ws) <= WrittenKeys(vs)
  {
  }

  /** The table name of a listed class. */
  function Tables(cs: seq<ModelClass>): (r: set<string>)
    ensures forall c :: c in cs ==> SnakeIt(c.name) in r
  {
    set c | c in cs :: SnakeIt(c.name)
  }

  /**
   * Referential closure of an attribute: it belongs to a listed class, a
   * foreign key targets the table of a listed class, and a relationship
   * targets a listed class through a column of a listed class.
   */
  predicate Closed(cs: seq<ModelClass>, k: AttrKey, a: Attr) {
    k.owner in Names(cs)
    && (a.Column? && a.foreignKey.Some? ==> a.foreignKey.value.table in Tables(cs))
    && (a.Relationship? ==>
          (a.target in Names(cs) && a.foreignKeyColumn.Some? && a.foreignKeyColumn.value.owner in Names(cs)))
  }

  predicate ClosedMap(cs: seq<ModelClass>, m: map<AttrKey, Attr>) {
    forall k :: k in m ==> Closed(cs, k, m[k])
  }

  lemma FieldWritesClosed(cs: seq<ModelClass>, c: ModelClass, f: Field)
    requires c in cs && WellFormedType(cs, f.ty)
    ensures forall w :: w in CurrentWrites(cs, c.name, f) ==> Closed(cs, w.key, w.value)
  {
    assert c.name in Names(cs) by {
      var i :| 0 <= i < |cs| && cs[i] == c;
      assert Names(cs)[i] == c.name;
    }
    var t := StripField(f).ty;
    if f.name != "id" && IsListedModel(cs, t) {
      var d := ClassNamed(cs, t.name);
      assert SnakeIt(d.name) in Tables(cs);
    }
  }

  lemma {:induction false} AppliedClosed(cs: seq<ModelClass>, m: map<AttrKey, Attr>, ws: seq<Write>)
    requires ClosedMap(cs, m)
    requires forall w :: w in ws ==> Closed(cs, w.key, w.value)
    ensures ClosedMap(cs, Applied(m, ws))
    decreases ws
  {
    if ws != [] {
      assert ws[0] in ws;
      AppliedClosed(cs, m[ws[0].key := ws[0].value], ws[1..]);
    }
  }

  /**
   * Mapping a validated list onto classes with no attributes of their own
   * yields a referentially closed schema: every foreign key targets the
   * table of a listed class and every relationship a listed class.
   */
  lemma MappingIsClosed(cs: seq<ModelClass>)
    requires ValidModel(cs)
    ensures ClassesAccepted(Current, cs, cs)
    ensures ClosedMap(cs, Applied(map[], AllWrites(Current, cs, cs)))
  {
    ValidModelAccepted(cs);
    forall w | w in AllWrites(Current, cs, cs) ensures Closed(cs, w.key, w.value) {
      AllWritesFromFields(Current, cs, cs, w);
      var i, j :| 0 <= i < |cs| && 0 <= j < |cs[i].fields| && w in FieldWrites(Current, cs, cs[i].name, cs[i].fields[j]);
      FieldWritesClosed(cs, cs[i], cs[i].fields[j]);
    }
    AppliedClosed(cs, map[], AllWrites(Current, cs, cs));
  }

  /** `__tablename__` of every listed class; the last class of a name wins. */
  function TableNames(cs: seq<ModelClass>): (r: map<string, string>)
    ensures r.Keys == set c | c in cs :: c.name
    ensures forall c :: c in cs ==> r[c.name] == SnakeIt(c.name)
  {
    if cs == [] then map[]
    else
      var n := |cs| - 1;
      assert forall c :: c in cs <==> c in cs[..n] || c == cs[n];
      TableNames(cs[..n])[cs[n].name := SnakeIt(cs[n].name)]
  }

  /** One class more stripped: the shape of the definitions in the mapper's outer loop. */
  lemma StripStep(cs: seq<ModelClass>, i: nat)
    requires i < |cs|
    ensures (StripAll(cs[..i]) + cs[i..])[i] == cs[i]
    ensures (StripAll(cs[..i]) + cs[i..])[i := StripClass(cs[i])] == StripAll(cs[..i + 1]) + cs[i + 1..]
  {
  }

  lemma StripDone(cs: seq<ModelClass>)
    ensures cs[..|cs|] == cs
    ensures StripAll(cs[..|cs|]) + cs[|cs|..] == StripAll(cs)
    ensures forall k :: 0 <= k < |cs| ==> StripAll(cs)[k].name == cs[k].name
  {
    assert cs[..|cs|] == cs;
    assert StripAll(cs) + cs[|cs|..] == StripAll(cs);
  }

  lemma ValidatedIsWellFormed(cs: seq<ModelClass>)
    requires ValidateModelClasses(cs).Pass?
    ensures ValidModel(cs) && ClassesAccepted(Current, cs, cs)
  {
    ValidationPassesIffValid(cs);
    forall k | 0 <= k < |cs| ensures FieldsAccepted(Current, cs, cs[k].fields) { }
  }

  lemma WellFormedPrefix(mp: Mapping, cs: seq<ModelClass>, i: nat)
    requires ClassesAccepted(mp, cs, cs) && i <= |cs|
    ensures ClassesAccepted(mp, cs, cs[..i])
  {
    forall k | 0 <= k < i ensures FieldsAccepted(mp, cs, cs[..i][k].fields) {
      assert cs[..i][k] == cs[k];
    }
  }

  lemma TableNamesStep(cs: seq<ModelClass>, i: nat, t: map<string, string>)
    requires i < |cs|
    ensures (t + TableNames(cs[..i]))[cs[i].name := SnakeIt(cs[i].name)] == t + TableNames(cs[..i + 1])
  {
    assert cs[..i + 1][..i] == cs[..i];
    Maps.MergeUpdate(t, TableNames(cs[..i]), cs[i].name, SnakeIt(cs[i].name));
  }

  /** One class more: how the attributes grow in the mapper's outer loop. */
  lemma ClassWritesStep(mp: Mapping, cs: seq<ModelClass>, owner: string, fs: seq<Field>, j: nat, m: map<AttrKey, Attr>)
    requires FieldsAccepted(mp, cs, fs) && j < |fs|
    ensures FieldsAccepted(mp, cs, fs[..j]) && FieldsAccepted(mp, cs, fs[..j + 1]) && Accepts(mp, cs, fs[j].ty)
    ensures Applied(Applied(m, ClassWrites(mp, cs, owner, fs[..j])), FieldWrites(mp, cs, owner, fs[j]))
            == Applied(m, ClassWrites(mp, cs, owner, fs[..j + 1]))
  {
    assert FieldsAccepted(mp, cs, fs[..j + 1]);
    assert fs[..j + 1][..j] == fs[..j];
    AppliedAppend(m, ClassWrites(mp, cs, owner, fs[..j]), FieldWrites(mp, cs, owner, fs[j]));
  }

  lemma AllWritesStep(mp: Mapping, cs: seq<ModelClass>, i: nat, m: map<AttrKey, Attr>)
    requires ClassesAccepted(mp, cs, cs) && i < |cs|
    ensures ClassesAccepted(mp, cs, cs[..i]) && ClassesAccepted(mp, cs, cs[..i + 1])
    ensures FieldsAccepted(mp, cs, cs[i].fields)
    ensures Applied(Applied(m, AllWrites(mp, cs, cs[..i])), ClassWrites(mp, cs, cs[i].name, cs[i].fields))
            == Applied(m, AllWrites(mp, cs, cs[..i + 1]))
  {
    WellFormedPrefix(mp, cs, i);
    WellFormedPrefix(mp, cs, i + 1);
    assert cs[..i + 1][..i] == cs[..i];
    assert AllWrites(mp, cs, cs[..i + 1]) == AllWrites(mp, cs, cs[..i]) + ClassWrites(mp, cs, cs[i].name, cs[i].fields);
    AppliedAppend(m, AllWrites(mp, cs, cs[..i]), ClassWrites(mp, cs, cs[i].name, cs[i].fields));
  }

  lemma SampleModelNames()
    ensures Names(SampleModel) == ["Crs", "Datafile", "Dataset", "Supplier", "SupplierType"]
    ensures ClassNamed(SampleModel, "Crs") == Crs && ClassNamed(SampleModel, "Datafile") == Datafile
  {
  }

  /** The table names of the sample's single-word classes. */
  lemma SampleWordsSnaked()
    ensures SnakeIt("Crs") == "crs" && SnakeIt("Datafile") == "datafile" && SnakeIt("Dataset") == "dataset"
  {
    CapitalisedSnaked("Crs", "crs");
    CapitalisedSnaked("Datafile", "datafile");
    CapitalisedSnaked("Dataset", "dataset");
  }

  lemma CapitalisedSnaked(w: string, lower: string)
    requires |w| == |lower| && |w| > 0 && IsUpper(w[0]) && lower[0] == ToLower(w[0])
    requires forall i :: 1 <= i < |w| ==> 'a' <= w[i] <= 'z' && lower[i] == w[i]
    ensures SnakeIt(w) == lower
  {
    SnakeItCapitalisedWord(w);
  }

  /** The sample `Dataset`'s `crs` reference gets `crs_id`, which does not cascade: `Crs` is a lookup type. */
  lemma SampleCrsMapping()
    ensures Names(SampleModel) == ["Crs", "Datafile", "Dataset", "Supplier", "SupplierType"]
    ensures var ws := CurrentWrites(SampleModel, "Dataset", Dataset.fields[4]);
            ws[0] == Write(AttrKey("Dataset", "crs_id"),
                           Column(None, false, Some(ForeignKey("crs", None)), None, IntType))
  {
    SampleModelNames();
    ReferenceFieldMapping(SampleModel, "Dataset", Dataset.fields[4], "Crs");
    SampleWordsSnaked();
  }

  /** `last_datafile: Optional[Datafile]` gets a nullable `last_datafile_id` that cascades. */
  lemma SampleLastDatafileMapping()
    ensures Names(SampleModel) == ["Crs", "Datafile", "Dataset", "Supplier", "SupplierType"]
    ensures var ws := CurrentWrites(SampleModel, "Dataset", Dataset.fields[3]);
            ws[0] == Write(AttrKey("Dataset", "last_datafile_id"),
                           Column(None, false, Some(ForeignKey("datafile", Some("CASCADE"))), None, Opt(IntType)))
  {
    SampleModelNames();
    ReferenceFieldMapping(SampleModel, "Dataset", Dataset.fields[3], "Datafile");
    SampleWordsSnaked();
  }

  /** `datafiles: List[Datafile]` puts `dataset_id` on `Datafile`, deleting in cascade. */
  lemma SampleDatafilesMapping()
    ensures Names(SampleModel) == ["Crs", "Datafile", "Dataset", "Supplier", "SupplierType"]
    ensures var ws := CurrentWrites(SampleModel, "Dataset", Dataset.fields[2]);
            ws[0] == Write(AttrKey("Datafile", "dataset_id"),
                           Column(None, false, Some(ForeignKey("dataset", Some("CASCADE"))), None, IntType))
            && ws[1].value.cascade == Some("all, delete")
  {
    SampleModelNames();
    ListFieldMapping(SampleModel, "Dataset", Dataset.fields[2], "Datafile");
    SampleWordsSnaked();
  }

  // ---------------------------------------------------------------------
  // The mapper

  /**
   * The mutable state `create_sqlalchemy_types` works on: the classes'
   * strawberry definitions (whose field types it strips), their
   * `__tablename__`, their attributes with annotations, and the registry.
   */
  class Mapper {
    var classes: seq<ModelClass>
    var tableNames: map<string, string>
    var attrs: map<AttrKey, Attr>
    var registered: seq<string>

    constructor (classes: seq<ModelClass>)
      ensures this.classes == classes && tableNames == map[] && attrs == map[] && registered == []
    {
      this.classes := classes;
      tableNames := map[];
      attrs := map[];
      registered := [];
    }

    /**
     * `create_sqlalchemy_types`: maps the classes in list order, then
     * registers them all.  The list must have passed validation, as the
     * manager ensures before calling it.
     */
    method CreateSqlalchemyTypes()
      modifies this
      requires ValidateModelClasses(classes).Pass?
      ensures ClassesAccepted(Current, old(classes), old(classes))
      ensures classes == StripAll(old(classes))
      ensures tableNames == old(tableNames) + TableNames(old(classes))
      ensures attrs == Applied(old(attrs), AllWrites(Current, old(classes), old(classes)))
      ensures registered == old(registered) + Names(old(classes))
    {
      var listed := classes;
      ValidatedIsWellFormed(listed);
      var i := 0;
      while i < |listed|
        invariant i <= |listed| == |classes|
        invariant classes == StripAll(listed[..i]) + listed[i..]
        invariant tableNames == old(tableNames) + TableNames(listed[..i])
        invariant attrs == Applied(old(attrs), AllWrites(Current, listed, listed[..i]))
        invariant registered == old(registered)
      {
        TableNamesStep(listed, i, old(tableNames));
        AllWritesStep(Current, listed, i, old(attrs));
        StripStep(listed, i);
        MapClass(listed, i);
        i := i + 1;
      }
      StripDone(listed);
      RegisterAll(listed);
    }

    /** The second loop: every class is registered once all have been mapped. */
    method RegisterAll(ghost listed: seq<ModelClass>)
      modifies this
      requires |classes| == |listed| && forall k :: 0 <= k < |listed| ==> classes[k].name == listed[k].name
      ensures classes == old(classes) && tableNames == old(tableNames) && attrs == old(attrs)
      ensures registered == old(registered) + Names(listed)
    {
      ghost var before := registered;
      var k := 0;
      while k < |classes|
        invariant k <= |classes| == |listed|
        invariant classes == old(classes) && tableNames == old(tableNames) && attrs == old(attrs)
        invariant |registered| == |before| + k && registered[..|before|] == before
        invariant forall p :: 0 <= p < k ==> registered[|before| + p] == listed[p].name
      {
        registered := registered + [classes[k].name];
        k := k + 1;
      }
      assert registered == before + Names(listed);
    }

    /** The body of the outer loop for class `i`: its table name, then its fields in order. */
    method MapClass(listed: seq<ModelClass>, i: nat)
      modifies this
      requires i < |listed| == |classes| && classes[i] == listed[i]
      requires FieldsAccepted(Current, listed, listed[i].fields)
      ensures classes == old(classes)[i := StripClass(listed[i])]
      ensures tableNames == old(tableNames)[listed[i].name := SnakeIt(listed[i].name)]
      ensures attrs == Applied(old(attrs), ClassWrites(Current, listed, listed[i].name, listed[i].fields))
      ensures registered == old(registered)
    {
      tableNames := tableNames[classes[i].name := SnakeIt(classes[i].name)];
      MapFields(listed, i);
    }

    /** The inner loop: the fields of class `i` in declaration order. */
    method MapFields(listed: seq<ModelClass>, i: nat)
      modifies this
      requires i < |listed| == |classes| && classes[i] == listed[i]
      requires FieldsAccepted(Current, listed, listed[i].fields)
      ensures classes == old(classes)[i := StripClass(listed[i])]
      ensures attrs == Applied(old(attrs), ClassWrites(Current, listed, listed[i].name, listed[i].fields))
      ensures tableNames == old(tableNames) && registered == old(registered)
    {
      var c := classes[i];
      var fs := c.fields;
      var j := 0;
      assert StripFields(fs[..0]) + fs[0..] == fs;
      assert classes == old(classes)[i := c];
      while j < |fs|
        invariant j <= |fs|
        invariant classes == old(classes)[i := c.(fields := StripFields(fs[..j]) + fs[j..])]
        invariant attrs == Applied(old(attrs), ClassWrites(Current, listed, c.name, fs[..j]))
        invariant tableNames == old(tableNames) && registered == old(registered)
      {
        ClassWritesStep(Current, listed, c.name, fs, j, old(attrs));
        ghost var current := classes[i];
        StripFieldsStep(fs, j);
        MapField(listed, i, j, current);
        Maps.UpdateTwice(old(classes), i, current, classes[i]);
        j := j + 1;
      }
      assert fs[..j] == fs;
      assert StripFields(fs[..j]) + fs[j..] == StripFields(fs);
    }

    /** One field more stripped: the shape of a class's field list in the mapper's inner loop. */
    static lemma StripFieldsStep(fs: seq<Field>, j: nat)
      requires j < |fs|
      ensures (StripFields(fs[..j]) + fs[j..])[j] == fs[j]
      ensures (StripFields(fs[..j]) + fs[j..])[j := StripField(fs[j])] == StripFields(fs[..j + 1]) + fs[j + 1..]
    {
      assert fs[j..][0] == fs[j];
      assert (StripFields(fs[..j]) + fs[j..])[j := StripField(fs[j])] == StripFields(fs[..j + 1]) + fs[j + 1..];
    }

    /** The body of the inner loop for field `j` of class `i`: the Optional wrapper is stripped, then the attributes attached. */
    method MapField(listed: seq<ModelClass>, i: nat, j: nat, ghost c: ModelClass)
      modifies this
      requires i < |listed| == |classes| && classes[i] == c
      requires j < |c.fields| && c.name == listed[i].name
      requires WellFormedType(listed, c.fields[j].ty)
      ensures classes == old(classes)[i := c.(fields := c.fields[j := StripField(c.fields[j])])]
      ensures tableNames == old(tableNames) && registered == old(registered)
      ensures attrs == Applied(old(attrs), CurrentWrites(listed, c.name, c.fields[j]))
    {
      var owner := classes[i];
      var field := owner.fields[j];
      var t := field.ty;
      var isOptional := false;
      if t.Opt? {
        t := t.inner;
        isOptional := true;
        classes := classes[i := owner.(fields := owner.fields[j := field.(ty := t)])];
      } else {
        assert owner.fields[j := StripField(field)] == owner.fields;
      }
      AttachField(listed, owner.name, field, t, isOptional);
    }

    /** The `setattr`s and annotations for one field whose stripped type is `t`. */
    method AttachField(listed: seq<ModelClass>, owner: string, field: Field, t: Ty, isOptional: bool)
      modifies this
      requires WellFormedType(listed, field.ty)
      requires t == StripField(field).ty && isOptional == field.ty.Opt?
      ensures classes == old(classes) && tableNames == old(tableNames) && registered == old(registered)
      ensures attrs == Applied(old(attrs), CurrentWrites(listed, owner, field))
    {
      ghost var ws := CurrentWrites(listed, owner, field);
      if field.name == "id" {
        attrs := attrs[AttrKey(owner, "id") := Column(None, true, None, None, IntType)];
        AppliedOne(old(attrs), ws);
      } else if t.Model? && t.name in Names(listed) {
        var column := field.name + "_id";
        var onDelete := if ClassNamed(listed, t.name).lookup then None else Some(Cascade);
        attrs := attrs[AttrKey(owner, column) :=
          Column(None, false, Some(ForeignKey(SnakeIt(t.name), onDelete)), None,
                 if isOptional then Opt(IntType) else IntType)];
        attrs := attrs[AttrKey(owner, field.name) :=
          Relationship(t.name, None, Some(AttrKey(owner, column)), None, if isOptional then Opt(t) else t)];
        AppliedTwo(old(attrs), ws);
      } else if t.ListOf? {
        var child := t.elem.name;
        var column := SnakeIt(owner) + "_id";
        var cascade := if ClassNamed(listed, child).lookup then None else Some(AllDelete);
        attrs := attrs[AttrKey(child, column) :=
          Column(None, false, Some(ForeignKey(SnakeIt(owner), if cascade.Some? then Some(Cascade) else None)),
                 None, IntType)];
        attrs := attrs[AttrKey(owner, field.name) :=
          Relationship(child, cascade, Some(AttrKey(child, column)), None, if isOptional then Opt(t) else t)];
        AppliedTwo(old(attrs), ws);
      } else {
        attrs := attrs[AttrKey(owner, field.name) :=
          Column(MappedType(t.kind), false, None, Some(isOptional), if isOptional then Opt(t) else t)];
        AppliedOne(old(attrs), ws);
      }
    }
  }
}
