/**
 * `StrawchemySchema` of strawberrysqlalchemy/strawchemy/schema.py: the model
 * types reachable from the queriable types, the tables wired into them, and
 * the generated Query and Mutation classes.  Type hints are `Ty`
 * descriptors; a class's hints are its fields.
 */
module LegacySchema {
  import opened Wrappers
  import opened ModelTypes
  import opened SnakeCase
  import opened Fixtures
  import Maps

  datatype SchemaError =
    | NoIssubset              // AttributeError: 'dict' object has no attribute 'issubset'
    | NotSubset               // "mutable set must be a subset of the queriable set"
    | NoModelTypes            // "StrawchemySchema requires at least one class type in the queriable argument"
    | ImmutableType           // TypeError: a collected library class refuses `setattr`
    | NoName(t: Ty)           // AttributeError: the value has no `__name__`
    | NotInstantiable(t: Ty)  // TypeError: the hint cannot be called without arguments

  // ---------------------------------------------------------------------
  // Collecting the nested model types

  /** The scalar classes found among `__builtins__.values()`; the `datetime` module's classes are not. */
  predicate IsBuiltin(k: ScalarKind) {
    k in {Int, Float, Str, Bool, Bytes, BareList, BareDict}
  }

  /** `__get_origin_model_type`: the element of a `List[...]` hint, any other hint as it is. */
  function OriginModelType(t: Ty): (r: Ty)
    ensures t.ListOf? ==> r == t.elem
    ensures r.ListOf? ==> t.ListOf? && t.elem.ListOf?
  {
    if t.ListOf? then t.elem else t
  }

  /** The filter at lines 170-171: a class that is not a builtin (typing aliases and other values are not classes). */
  predicate Collectable(t: Ty) {
    t.Model? || t.Generated? || (t.Scalar? && !IsBuiltin(t.kind))
  }

  /** `typing.get_type_hints`: the fields of a model class; library classes have none. */
  function Hints(world: seq<ModelClass>, t: Ty): seq<Field> {
    if t.Model? && t.name in Names(world) then ClassNamed(world, t.name).fields else []
  }

  /** Hint names starting with `_` are not followed. */
  predicate Followed(f: Field) {
    !("_" <= f.name)
  }

  /** The set `resolved_model_types`, in one iteration order, without repetitions. */
  function ResolvedTypes(ts: seq<Ty>): (r: seq<Ty>)
    ensures forall x :: x in r ==> Collectable(x) && exists t :: t in ts && OriginModelType(t) == x
    ensures forall t :: t in ts && Collectable(OriginModelType(t)) ==> OriginModelType(t) in r
    ensures forall i, j :: 0 <= i < j < |r| ==> r[i] != r[j]
  {
    if ts == [] then []
    else
      var rest := ResolvedTypes(ts[1..]);
      var x := OriginModelType(ts[0]);
      assert forall t :: t in ts[1..] ==> t in ts;
      if Collectable(x) && x !in rest then [x] + rest else rest
  }

  /** `sub_types` as written: the followed hints that are not themselves collected, compared before resolving. */
  function SubTypesAsWritten(fs: seq<Field>, acc: set<Ty>): (r: seq<Ty>)
    ensures forall t :: t in r ==> t !in acc
  {
    if fs == [] then []
    else (if Followed(fs[0]) && fs[0].ty !in acc then [fs[0].ty] else []) + SubTypesAsWritten(fs[1..], acc)
  }

  /** `sub_types` comparing the resolved hint with the collected types. */
  function SubTypes(fs: seq<Field>, acc: set<Ty>): (r: seq<Ty>)
    ensures forall t :: t in r ==> OriginModelType(t) !in acc && exists f :: f in fs && f.ty == t
    ensures forall f :: f in fs && Followed(f) && OriginModelType(f.ty) !in acc ==> f.ty in r
  {
    if fs == [] then []
    else
      assert forall f :: f in fs ==> f == fs[0] || f in fs[1..];
      (if Followed(fs[0]) && OriginModelType(fs[0].ty) !in acc then [fs[0].ty] else []) + SubTypes(fs[1..], acc)
  }

  /**
   * `__get_nested_model_types` as written, with a recursion budget: None is
   * Python's RecursionError.  The accumulator set is shared by all the calls,
   * so each call hands its grown set on to the next.
   */
  function NestedAsWritten(world: seq<ModelClass>, ts: seq<Ty>, acc: set<Ty>, fuel: nat): (r: Option<set<Ty>>)
    ensures r.Some? ==> acc <= r.value
    decreases fuel, 1, 0
  {
    NestedLoopAsWritten(world, ResolvedTypes(ts), acc, fuel)
  }

  /** The loop at lines 174-182 as written. */
  function NestedLoopAsWritten(world: seq<ModelClass>, rs: seq<Ty>, acc: set<Ty>, fuel: nat): (r: Option<set<Ty>>)
    ensures r.Some? ==> acc + (set x | x in rs) <= r.value
    ensures rs != [] && fuel == 0 ==> r.None?
    decreases fuel, 0, |rs|
  {
    if rs == [] then Some(acc)
    else if fuel == 0 then None
    else
      var acc1 := acc + {rs[0]};
      match NestedAsWritten(world, SubTypesAsWritten(Hints(world, rs[0]), acc1), acc1, fuel - 1)
      case None => None
      case Some(acc2) => NestedLoopAsWritten(world, rs[1..], acc2, fuel)
  }

  /** Every collectable resolved hint of a class of `world` lies in `u`. */
  predicate Bounded(world: seq<ModelClass>, u: set<Ty>) {
    forall c, f :: c in world && f in c.fields && Collectable(OriginModelType(f.ty)) ==> OriginModelType(f.ty) in u
  }

  /** The classes a collection starting from `ts` can meet. */
  function Universe(world: seq<ModelClass>, ts: seq<Ty>): (u: set<Ty>)
    ensures Bounded(world, u)
    ensures forall t :: t in ts && Collectable(OriginModelType(t)) ==> OriginModelType(t) in u
    ensures forall x :: x in u ==> Collectable(x)
  {
    (set c, f | c in world && f in c.fields && Collectable(OriginModelType(f.ty)) :: OriginModelType(f.ty))
    + (set t | t in ts && Collectable(OriginModelType(t)) :: OriginModelType(t))
  }

  /** The types `ts` resolves to that are still to be collected. */
  predicate Fresh(u: set<Ty>, ts: seq<Ty>, acc: set<Ty>) {
    forall t :: t in ts && Collectable(OriginModelType(t)) ==> OriginModelType(t) in u && OriginModelType(t) !in acc
  }

  /**
   * The collection with the visited test on the resolved hint: a call
   * that starts only on types not yet collected, and then only follows
   * hints that resolve to types not yet collected, ends.
   */
  function Nested(world: seq<ModelClass>, u: set<Ty>, ts: seq<Ty>, acc: set<Ty>): (r: set<Ty>)
    requires Bounded(world, u) && Fresh(u, ts, acc)
    ensures acc <= r
    decreases |u - acc|, 1, 0
  {
    NestedLoop(world, u, ResolvedTypes(ts), acc, acc)
  }

  function NestedLoop(world: seq<ModelClass>, u: set<Ty>, rs: seq<Ty>, acc: set<Ty>, acc0: set<Ty>): (r: set<Ty>)
    requires Bounded(world, u) && acc0 <= acc
    requires forall x :: x in rs ==> x in u && x !in acc0
    ensures acc <= r
    decreases |u - acc0|, 0, |rs|
  {
    if rs == [] then acc
    else
      var acc1 := acc + {rs[0]};
      Shrinks(u, acc0, acc1, rs[0]);
      var acc2 := Nested(world, u, SubTypes(Hints(world, rs[0]), acc1), acc1);
      NestedLoop(world, u, rs[1..], acc2, acc0)
  }

  /** The model types collected from the queriable types. */
  function NestedModelTypes(world: seq<ModelClass>, queriable: seq<Ty>): (r: set<Ty>)
    ensures forall x :: x in r ==> Collectable(x)
    ensures r <= Universe(world, queriable)
  {
    NestedCloses(world, Universe(world, queriable), queriable, {});
    Nested(world, Universe(world, queriable), queriable, {})
  }

  /** Collecting one more type shrinks the set of types still to collect. */
  lemma Shrinks(u: set<Ty>, a: set<Ty>, b: set<Ty>, x: Ty)
    requires a <= b && x in b && x !in a && x in u
    ensures |u - b| < |u - a|
  {
    assert u - b <= (u - a) - {x};
    assert |(u - a) - {x}| == |u - a| - 1;
    SubsetCard(u - b, (u - a) - {x});
  }

  lemma {:induction false} SubsetCard(a: set<Ty>, b: set<Ty>)
    requires a <= b
    ensures |a| <= |b|
    decreases |b|
  {
    if a != {} {
      var x :| x in a;
      SubsetCard(a - {x}, b - {x});
    }
  }

  /** Every followed hint of a type in `d` that resolves to a class resolves into `r`. */
  predicate ClosedOver(world: seq<ModelClass>, r: set<Ty>, d: set<Ty>) {
    forall x, f :: x in d && f in Hints(world, x) && Followed(f) && Collectable(OriginModelType(f.ty)) ==>
      OriginModelType(f.ty) in r
  }

  /**
   * What a call adds: its own starting types, only classes, and with them
   * the classes their followed hints resolve to.
   */
  lemma {:induction false} NestedCloses(world: seq<ModelClass>, u: set<Ty>, ts: seq<Ty>, acc: set<Ty>)
    requires Bounded(world, u) && Fresh(u, ts, acc)
    ensures var r := Nested(world, u, ts, acc);
            (forall t :: t in ts && Collectable(OriginModelType(t)) ==> OriginModelType(t) in r)
            && (forall x :: x in r && x !in acc ==> Collectable(x) && x in u)
            && ClosedOver(world, r, r - acc)
    decreases |u - acc|, 1, 0
  {
    NestedLoopCloses(world, u, ResolvedTypes(ts), acc, acc);
  }

  lemma {:induction false} NestedLoopCloses(world: seq<ModelClass>, u: set<Ty>, rs: seq<Ty>, acc: set<Ty>, acc0: set<Ty>)
    requires Bounded(world, u) && acc0 <= acc
    requires forall x :: x in rs ==> x in u && x !in acc0 && Collectable(x)
    requires forall x :: x in acc && x !in acc0 ==> Collectable(x) && x in u
    ensures var r := NestedLoop(world, u, rs, acc, acc0);
            (forall x :: x in rs ==> x in r)
            && (forall x :: x in r && x !in acc ==> Collectable(x) && x in u)
            && ClosedOver(world, r, (r - acc) + set x | x in rs)
    decreases |u - acc0|, 0, |rs|
  {
    if rs != [] {
      var x := rs[0];
      var acc1 := acc + {x};
      Shrinks(u, acc0, acc1, x);
      var hs := Hints(world, x);
      var sub := SubTypes(hs, acc1);
      var acc2 := Nested(world, u, sub, acc1);
      NestedCloses(world, u, sub, acc1);
      NestedLoopCloses(world, u, rs[1..], acc2, acc0);
      var r := NestedLoop(world, u, rs[1..], acc2, acc0);
      assert r == NestedLoop(world, u, rs, acc, acc0);
      forall f | f in hs && Followed(f) && Collectable(OriginModelType(f.ty))
        ensures OriginModelType(f.ty) in r
      {
        if OriginModelType(f.ty) !in acc1 {
          assert f.ty in sub;
        }
      }
      forall y | y in rs ensures y in r {
        if y != x {
          assert y in rs[1..];
        }
      }
    }
  }

  /**
   * The collection from the queriable types holds exactly what can be
   * reached: every class a queriable type resolves to, only classes, and
   * with each class every class its followed hints resolve to.
   */
  lemma NestedModelTypesClosed(world: seq<ModelClass>, queriable: seq<Ty>)
    ensures var r := NestedModelTypes(world, queriable);
            (forall t :: t in queriable && Collectable(OriginModelType(t)) ==> OriginModelType(t) in r)
            && (forall x :: x in r ==> Collectable(x))
            && r <= Universe(world, queriable)
            && ClosedOver(world, r, r)
  {
    NestedCloses(world, Universe(world, queriable), queriable, {});
  }

  /** A set that holds every class the hints and the starting types resolve to holds the universe. */
  lemma UniverseWithin(world: seq<ModelClass>, ts: seq<Ty>, s: set<Ty>)
    requires forall c, f :: c in world && f in c.fields && Collectable(OriginModelType(f.ty)) ==> OriginModelType(f.ty) in s
    requires forall t :: t in ts && Collectable(OriginModelType(t)) ==> OriginModelType(t) in s
    ensures Universe(world, ts) <= s
  {
  }

  /**
   * tests/test_strawchemy_schema.py: from `NestedModel`, `1` and `2` the
   * collection finds the three nested classes, ignores the integers and
   * survives the `loop: List["NestedModel"]` back edge.
   */
  lemma NestedFixtureCollected()
    ensures NestedModelTypes(TestModels, [Model("NestedModel"), Other("1"), Other("2")])
            == {Model("NestedModel"), Model("NestedModelA"), Model("NestedModelA1")}
  {
    var ts := [Model("NestedModel"), Other("1"), Other("2")];
    var expected := {Model("NestedModel"), Model("NestedModelA"), Model("NestedModelA1")};
    TestModelsOrigins(expected);
    TestModelsHints();
    ChainCollected(TestModels, ts, Model("NestedModel"), NestedModel.fields[1], NestedModelA.fields[1], expected);
  }

  /**
   * A root whose followed hint leads to a second class, whose followed hint
   * leads to a third, collects exactly those three when nothing else is
   * reachable.
   */
  lemma ChainCollected(world: seq<ModelClass>, ts: seq<Ty>, x0: Ty, f1: Field, f2: Field, s: set<Ty>)
    requires forall c, f :: c in world && f in c.fields && Collectable(OriginModelType(f.ty)) ==> OriginModelType(f.ty) in s
    requires forall t :: t in ts && Collectable(OriginModelType(t)) ==> OriginModelType(t) in s
    requires |ts| > 0 && OriginModelType(ts[0]) == x0 && Collectable(x0)
    requires f1 in Hints(world, x0) && Followed(f1) && Collectable(OriginModelType(f1.ty))
    requires f2 in Hints(world, OriginModelType(f1.ty)) && Followed(f2) && Collectable(OriginModelType(f2.ty))
    requires s == {x0, OriginModelType(f1.ty), OriginModelType(f2.ty)}
    ensures NestedModelTypes(world, ts) == s
  {
    NestedModelTypesClosed(world, ts);
    UniverseWithin(world, ts, s);
    assert ts[0] in ts;
  }

  lemma TestModelsOrigins(s: set<Ty>)
    requires s == {Model("NestedModel"), Model("NestedModelA"), Model("NestedModelA1")}
    ensures forall c, f :: c in TestModels && f in c.fields && Collectable(OriginModelType(f.ty)) ==> OriginModelType(f.ty) in s
  {
    forall c, f | c in TestModels && f in c.fields && Collectable(OriginModelType(f.ty))
      ensures OriginModelType(f.ty) in s
    {
      assert c == SimpleModel || c == NestedModelA1 || c == NestedModelA || c == NestedModel;
    }
  }

  lemma TestModelsHints()
    ensures Hints(TestModels, Model("NestedModel")) == NestedModel.fields
    ensures Hints(TestModels, Model("NestedModelA")) == NestedModelA.fields
    ensures Followed(NestedModel.fields[1]) && Followed(NestedModelA.fields[1])
  {
    assert Names(TestModels) == ["SimpleModel", "NestedModelA1", "NestedModelA", "NestedModel"];
    assert "nest"[0] != '_';
  }

  /** A class whose only way back to itself is a list of itself. */
  const Category: ModelClass := ModelClass("Category", [IdField, F("children", ListOf(Model("Category")))], false)

  /**
   * As written the collection never ends on a cycle of `List[...]` hints:
   * `List[Category]` is never among the collected classes, so every call
   * follows it again, whatever the recursion budget.
   */
  lemma ListCycleDiverges(fuel: nat)
    ensures NestedAsWritten([Category], [Model("Category")], {}, fuel) == None
  {
    CategoryFacts();
    SelfListDiverges([Category], Model("Category"), [IntType, ListOf(Model("Category"))], fuel);
  }

  /** Starting from such a class, the collection as written runs out of any budget. */
  lemma SelfListDiverges(world: seq<ModelClass>, c: Ty, sub: seq<Ty>, fuel: nat)
    requires ResolvedTypes([c]) == [c] && ResolvedTypes(sub) == [c]
    requires SubTypesAsWritten(Hints(world, c), {c}) == sub
    ensures NestedAsWritten(world, [c], {}, fuel) == None
  {
    assert {} + {[c][0]} == {c};
    if fuel > 0 {
      SelfListLoops(world, c, sub, fuel - 1);
    }
  }

  /**
   * A class whose followed hints resolve, among the classes, only to itself
   * through a hint that is not a class (a `List[...]`) is visited again by
   * every call: the recursion never bottoms out.
   */
  lemma {:induction false} SelfListLoops(world: seq<ModelClass>, c: Ty, sub: seq<Ty>, fuel: nat)
    requires ResolvedTypes(sub) == [c]
    requires SubTypesAsWritten(Hints(world, c), {c}) == sub
    ensures NestedAsWritten(world, sub, {c}, fuel) == None
  {
    assert {c} + {[c][0]} == {c};
    if fuel > 0 {
      SelfListLoops(world, c, sub, fuel - 1);
    }
  }

  lemma CategoryFacts()
    ensures ResolvedTypes([Model("Category")]) == [Model("Category")]
    ensures ResolvedTypes([IntType, ListOf(Model("Category"))]) == [Model("Category")]
    ensures Hints([Category], Model("Category")) == Category.fields
    ensures SubTypesAsWritten(Category.fields, {Model("Category")}) == [IntType, ListOf(Model("Category"))]
  {
    CategoryResolved();
    CategoryHints();
  }

  lemma CategoryResolved()
    ensures ResolvedTypes([Model("Category")]) == [Model("Category")]
    ensures ResolvedTypes([IntType, ListOf(Model("Category"))]) == [Model("Category")]
  {
    var one := [ListOf(Model("Category"))];
    assert [IntType, ListOf(Model("Category"))][1..] == one;
    assert one[1..] == [];
    assert ResolvedTypes(one) == [Model("Category")];
    assert !Collectable(IntType);
    assert [Model("Category")][1..] == [];
  }

  lemma CategoryHints()
    ensures Hints([Category], Model("Category")) == Category.fields
    ensures SubTypesAsWritten(Category.fields, {Model("Category")}) == [IntType, ListOf(Model("Category"))]
  {
    assert Names([Category]) == ["Category"];
    var fs := Category.fields;
    assert Followed(fs[0]) by { assert "id"[0] != '_'; }
    assert Followed(fs[1]) by { assert "children"[0] != '_'; }
    assert fs[1..][1..] == [];
    assert SubTypesAsWritten(fs[1..], {Model("Category")}) == [ListOf(Model("Category"))];
  }

  /** With the visited test on the resolved hint the same class is collected once and the collection ends. */
  lemma ListCycleCollected()
    ensures NestedModelTypes([Category], [Model("Category")]) == {Model("Category")}
  {
    var c := Model("Category");
    forall m, f | m in [Category] && f in m.fields && Collectable(OriginModelType(f.ty))
      ensures OriginModelType(f.ty) in {c}
    {
      assert m == Category;
    }
    SingleCollected([Category], [c], c);
  }

  /** A root whose hints resolve to no class other than itself collects only itself. */
  lemma SingleCollected(world: seq<ModelClass>, ts: seq<Ty>, x0: Ty)
    requires forall c, f :: c in world && f in c.fields && Collectable(OriginModelType(f.ty)) ==> OriginModelType(f.ty) in {x0}
    requires forall t :: t in ts && Collectable(OriginModelType(t)) ==> OriginModelType(t) in {x0}
    requires |ts| > 0 && OriginModelType(ts[0]) == x0 && Collectable(x0)
    ensures NestedModelTypes(world, ts) == {x0}
  {
    NestedModelTypesClosed(world, ts);
    UniverseWithin(world, ts, {x0});
    assert ts[0] in ts;
  }

  // ---------------------------------------------------------------------
  // The mutable set

  /** The mutable types as given, in the iteration order of the set; None when omitted. */
  function MutableTypes(mutable: Option<seq<Ty>>): seq<Ty> {
    if mutable.Some? then mutable.value else []
  }

  /**
   * Lines 42-45 as written: an omitted or empty mutable set is replaced by
   * `{}`, which is an empty dict, and the dict has no `issubset`.
   */
  function MutableCheckAsWritten(queriable: seq<Ty>, mutable: Option<seq<Ty>>): (r: Outcome<SchemaError>)
    ensures r.Pass? ==> mutable.Some? && mutable.value != [] && forall t :: t in mutable.value ==> t in queriable
  {
    if mutable.None? || mutable.value == [] then Fail(NoIssubset)
    else if forall t :: t in mutable.value ==> t in queriable then Pass
    else Fail(NotSubset)
  }

  /** Lines 42-45 with an empty set in place of the dict. */
  function MutableCheck(queriable: seq<Ty>, mutable: Option<seq<Ty>>): (r: Outcome<SchemaError>)
    ensures r.Pass? <==> forall t :: t in MutableTypes(mutable) ==> t in queriable
    ensures r.Fail? ==> r.error == NotSubset
  {
    if forall t :: t in MutableTypes(mutable) ==> t in queriable then Pass else Fail(NotSubset)
  }

  /** Without a mutable set every construction fails as written; corrected it is the empty, trivially contained, set. */
  lemma OmittedMutableSet(queriable: seq<Ty>)
    ensures MutableCheckAsWritten(queriable, None) == Fail(NoIssubset)
    ensures MutableCheckAsWritten(queriable, Some([])) == Fail(NoIssubset)
    ensures MutableCheck(queriable, None) == Pass && MutableCheck(queriable, Some([])) == Pass
  {
  }

  /** On a non-empty mutable set the two checks agree. */
  lemma MutableChecksAgree(queriable: seq<Ty>, mutable: seq<Ty>)
    requires mutable != []
    ensures MutableCheckAsWritten(queriable, Some(mutable)) == MutableCheck(queriable, Some(mutable))
  {
  }

  // ---------------------------------------------------------------------
  // Tables

  /** `TYPE_MAP`: a column type for every scalar class, the library ones and `list`/`dict` included. */
  function TypeMap(k: ScalarKind): (r: SqlType)
    ensures MappedType(k).Some? ==> r == MappedType(k).value
  {
    match k
    case Int => IntegerCol
    case Float => FloatCol
    case Str => StringCol
    case Bool => BooleanCol
    case DateTime => DateTimeCol
    case Date => DateCol
    case Time => TimeCol
    case Bytes => LargeBinaryCol
    case TimeDelta => IntervalCol
    case BareList => ArrayCol
    case BareDict => JsonCol
  }

  /** Distinct scalar classes get distinct column types. */
  lemma TypeMapInjective(j: ScalarKind, k: ScalarKind)
    ensures TypeMap(j) == TypeMap(k) ==> j == k
  {
  }

  /** `__name__` of a scalar class. */
  function ScalarName(k: ScalarKind): string {
    match k
    case Int => "int"
    case Float => "float"
    case Str => "str"
    case Bool => "bool"
    case DateTime => "datetime"
    case Date => "date"
    case Time => "time"
    case Bytes => "bytes"
    case TimeDelta => "timedelta"
    case BareList => "list"
    case BareDict => "dict"
  }

  /** `__name__`: classes and typing aliases have one; other values do not. */
  function ClassName(t: Ty): (r: Option<string>)
    ensures r.None? <==> t.Other?
    ensures Collectable(t) ==> r.Some?
  {
    match t
    case Scalar(k) => Some(ScalarName(k))
    case Model(n) => Some(n)
    case Generated(n) => Some(n)
    case ListOf(_) => Some("List")
    case Opt(_) => Some("Optional")
    case Other(_) => None
  }

  /** A column: a typed one, or one holding a foreign key to `<table>.id`. */
  datatype ColumnKind = Typed(sqlType: SqlType) | ForeignKeyTo(target: string)
  datatype Column = Column(name: string, kind: ColumnKind, primaryKey: bool)
  datatype Table = Table(name: string, columns: seq<Column>)

  /** Lines 96-100: one typed column per hint in `TYPE_MAP`; `id` is the primary key. */
  function ScalarColumns(fs: seq<Field>): (r: seq<Column>)
    ensures |r| <= |fs|
  {
    if fs == [] then []
    else
      var f := fs[0];
      (if f.ty.Scalar? then [Column(f.name, Typed(TypeMap(f.ty.kind)), f.name == "id")] else [])
      + ScalarColumns(fs[1..])
  }

  /** The foreign key column for a hint naming a collected class. */
  function ForeignKey(t: Ty): string
    requires Collectable(t)
  {
    SnakeItLegacy(ClassName(t).value) + ".id"
  }

  /** Lines 102-106: one foreign key column per hint that is itself a collected class. */
  function ForeignKeyColumns(fs: seq<Field>, modelTypes: set<Ty>): (r: seq<Column>)
    requires forall t :: t in modelTypes ==> Collectable(t)
    ensures |r| <= |fs|
  {
    if fs == [] then []
    else
      var f := fs[0];
      (if f.ty in modelTypes then [Column(f.name, ForeignKeyTo(ForeignKey(f.ty)), false)] else [])
      + ForeignKeyColumns(fs[1..], modelTypes)
  }

  /** Lines 96-121: the table wired into a collected class, named after the class in snake case. */
  function TableOf(world: seq<ModelClass>, modelTypes: set<Ty>, t: Ty): (r: Table)
    requires forall t :: t in modelTypes ==> Collectable(t)
    requires Collectable(t)
  {
    Table(SnakeItLegacy(ClassName(t).value),
          ScalarColumns(Hints(world, t)) + ForeignKeyColumns(Hints(world, t), modelTypes))
  }

  /** One typed column per scalar hint and no other column; `id` is the primary key. */
  lemma {:induction false} ScalarColumnsFromHints(fs: seq<Field>)
    ensures var r := ScalarColumns(fs);
            && (forall c :: c in r ==> c.kind.Typed? && (c.primaryKey <==> c.name == "id"))
            && (forall c :: c in r ==> exists f :: f in fs && f.ty.Scalar? && f.name == c.name && c.kind.sqlType == TypeMap(f.ty.kind))
            && (forall f :: f in fs && f.ty.Scalar? ==> Column(f.name, Typed(TypeMap(f.ty.kind)), f.name == "id") in r)
  {
    if fs != [] {
      assert forall f :: f in fs ==> f == fs[0] || f in fs[1..];
      ScalarColumnsFromHints(fs[1..]);
    }
  }

  /** One foreign key column per hint that is a collected class, to that class's table, and no other column. */
  lemma {:induction false} ForeignKeyColumnsFromHints(fs: seq<Field>, modelTypes: set<Ty>)
    requires forall t :: t in modelTypes ==> Collectable(t)
    ensures var r := ForeignKeyColumns(fs, modelTypes);
            && (forall c :: c in r ==> !c.primaryKey && c.kind.ForeignKeyTo?)
            && (forall c :: c in r ==> exists f :: f in fs && f.ty in modelTypes && f.name == c.name && c.kind.target == ForeignKey(f.ty))
            && (forall f :: f in fs && f.ty in modelTypes ==> Column(f.name, ForeignKeyTo(ForeignKey(f.ty)), false) in r)
  {
    if fs != [] {
      assert forall f :: f in fs ==> f == fs[0] || f in fs[1..];
      ForeignKeyColumnsFromHints(fs[1..], modelTypes);
    }
  }

  /**
   * A table's columns come from the class's hints: a hint gets a column
   * exactly when it is a scalar class or a collected class, and the primary
   * key is the typed `id` column.
   */
  lemma TableColumnsFromHints(world: seq<ModelClass>, modelTypes: set<Ty>, t: Ty)
    requires forall t :: t in modelTypes ==> Collectable(t)
    requires Collectable(t)
    ensures var cs := TableOf(world, modelTypes, t).columns;
            && (forall c :: c in cs ==> exists f :: f in Hints(world, t) && f.name == c.name && (f.ty.Scalar? || f.ty in modelTypes))
            && (forall f :: f in Hints(world, t) && (f.ty.Scalar? || f.ty in modelTypes) ==> exists c :: c in cs && c.name == f.name)
            && (forall c :: c in cs ==> (c.primaryKey <==> c.name == "id" && c.kind.Typed?))
  {
    var hs := Hints(world, t);
    var a, b := ScalarColumns(hs), ForeignKeyColumns(hs, modelTypes);
    ScalarColumnsFromHints(hs);
    ForeignKeyColumnsFromHints(hs, modelTypes);
    forall f | f in hs && (f.ty.Scalar? || f.ty in modelTypes) ensures exists c: Column :: c in a + b && c.name == f.name {
      if f.ty.Scalar? {
        assert Column(f.name, Typed(TypeMap(f.ty.kind)), f.name == "id") in a + b;
      } else {
        assert Column(f.name, ForeignKeyTo(ForeignKey(f.ty)), false) in a + b;
      }
    }
  }

  /**
   * Lines 110-115: the element class of every `List[...]` hint, by hint name.
   * `inspect.isbuiltin` is true only of builtin functions, so no class is
   * filtered out, `List[str]` included.
   */
  function OneToMany(fs: seq<Field>): (r: map<string, Ty>)
    ensures forall n :: n in r <==> exists f :: f in fs && f.name == n && f.ty.ListOf?
    ensures forall n :: n in r ==> exists f :: f in fs && f.name == n && f.ty == ListOf(r[n])
  {
    if fs == [] then map[]
    else
      var rest := OneToMany(fs[1..]);
      assert forall f :: f in fs ==> f == fs[0] || f in fs[1..];
      if fs[0].ty.ListOf? && fs[0].name !in rest then rest[fs[0].name := fs[0].ty.elem] else rest
  }

  /** The tables of all the collected classes. */
  function Tables(world: seq<ModelClass>, modelTypes: set<Ty>, done: set<Ty>): (r: map<Ty, Table>)
    requires forall t :: t in modelTypes ==> Collectable(t)
    requires done <= modelTypes
  {
    map t | t in done :: TableOf(world, modelTypes, t)
  }

  function OneToManys(world: seq<ModelClass>, done: set<Ty>): (r: map<Ty, map<string, Ty>>) {
    map t | t in done :: OneToMany(Hints(world, t))
  }

  /** The table of `SimpleModel`: `simple_model` with an integer primary key `id`, an integer and a string column. */
  const SimpleModelTable: Table := Table("simple_model", [Column("id", Typed(IntegerCol), true),
                                                          Column("root_value_1", Typed(IntegerCol), false),
                                                          Column("wibble", Typed(StringCol), false)])

  /** tests/test_strawchemy_schema.py: the table wired into `SimpleModel`. */
  lemma SimpleModelWired(world: seq<ModelClass>)
    requires Hints(world, Model("SimpleModel")) == SimpleModel.fields
    ensures TableOf(world, {Model("SimpleModel")}, Model("SimpleModel")) == SimpleModelTable
  {
    SnakeSimpleModel();
    var fs := SimpleModel.fields;
    var cs := SimpleModelTable.columns;
    assert forall i :: 0 <= i < 3 ==> cs[i] == Column(fs[i].name, Typed(TypeMap(fs[i].ty.kind)), fs[i].name == "id");
    ScalarTable(world, {Model("SimpleModel")}, Model("SimpleModel"), fs, "simple_model", cs);
  }

  lemma SimpleModelHints()
    ensures Hints(TestModels, Model("SimpleModel")) == SimpleModel.fields
    ensures Hints([SimpleModel], Model("SimpleModel")) == SimpleModel.fields
  {
    assert Names(TestModels)[0] == "SimpleModel";
    assert Names([SimpleModel])[0] == "SimpleModel";
  }

  /** The table of a class whose hints are all scalar classes: one typed column per hint, in order. */
  lemma ScalarTable(world: seq<ModelClass>, modelTypes: set<Ty>, t: Ty, fs: seq<Field>, name: string, cs: seq<Column>)
    requires forall t :: t in modelTypes ==> Collectable(t) && !t.Scalar?
    requires Collectable(t) && Hints(world, t) == fs && SnakeItLegacy(ClassName(t).value) == name
    requires forall f :: f in fs ==> f.ty.Scalar?
    requires |cs| == |fs| && forall i :: 0 <= i < |fs| ==> cs[i] == Column(fs[i].name, Typed(TypeMap(fs[i].ty.kind)), fs[i].name == "id")
    ensures TableOf(world, modelTypes, t) == Table(name, cs)
  {
    ScalarHintsColumns(fs);
    NoForeignKeyColumns(fs, modelTypes);
    assert ScalarColumns(fs) + [] == cs;
  }

  /** Hints that are all scalar classes get one typed column each, in order. */
  lemma {:induction false} ScalarHintsColumns(fs: seq<Field>)
    requires forall f :: f in fs ==> f.ty.Scalar?
    ensures |ScalarColumns(fs)| == |fs|
    ensures forall i :: 0 <= i < |fs| ==> ScalarColumns(fs)[i] == Column(fs[i].name, Typed(TypeMap(fs[i].ty.kind)), fs[i].name == "id")
  {
    if fs != [] {
      assert fs[0] in fs;
      assert forall f :: f in fs[1..] ==> f in fs;
      ScalarHintsColumns(fs[1..]);
    }
  }

  /** Hints none of which is a collected class get no foreign key column. */
  lemma {:induction false} NoForeignKeyColumns(fs: seq<Field>, modelTypes: set<Ty>)
    requires forall t :: t in modelTypes ==> Collectable(t)
    requires forall f :: f in fs ==> f.ty !in modelTypes
    ensures ForeignKeyColumns(fs, modelTypes) == []
  {
    if fs != [] {
      assert fs[0] in fs;
      assert forall f :: f in fs[1..] ==> f in fs;
      NoForeignKeyColumns(fs[1..], modelTypes);
    }
  }

  lemma SnakeSimpleModel()
    ensures SnakeItLegacy("SimpleModel") == "simple_model"
  {
    var ws := ["Simple", "Model"];
    assert Capitalised(ws[0]) && Capitalised(ws[1]);
    SnakeItCamelCase(ws);
    assert Concat(ws) == "SimpleModel";
    assert SnakeJoin(ws) == "simple_model";
    assert NoUpperAfterUnderscore("SimpleModel");
    SnakeItVersionsAgree("SimpleModel");
  }

  // ---------------------------------------------------------------------
  // The Query class

  /** The name of a type that has one. */
  function NameOf(t: Ty): string
    requires !t.Other?
  {
    ClassName(t).value
  }

  /** Lines 80-89: the annotations of the generated `Query` class, or the first queriable value without a name. */
  function QueryFields(queriable: seq<Ty>): (r: Result<map<string, Ty>, SchemaError>)
    ensures r.Err? ==> r.error.NoName? && r.error.t.Other?
  {
    if queriable == [] then Ok(map[])
    else
      var init, t := queriable[..|queriable| - 1], queriable[|queriable| - 1];
      assert queriable == init + [t];
      match QueryFields(init)
      case Err(e) => Err(e)
      case Ok(m) =>
        if t.Other? then Err(NoName(t))
        else Ok(m["GetAll" + NameOf(t) := ListOf(t)]["GetById" + NameOf(t) := t])
  }

  /** The two kinds of query field never share a name: the fourth letters differ. */
  lemma QueryNamesDiffer(a: string, b: string)
    ensures "GetAll" + a != "GetById" + b
  {
    assert ("GetAll" + a)[3] == 'A' && ("GetById" + b)[3] == 'B';
  }

  lemma PrefixCancels(p: string, a: string, b: string)
    ensures p + a == p + b ==> a == b
  {
    if p + a == p + b {
      assert a == (p + a)[|p|..] && b == (p + b)[|p|..];
    }
  }

  /** Adding one more queriable type to a sequence that has a `Query` class adds its two fields. */
  lemma QueryFieldsStep(init: seq<Ty>, t: Ty)
    requires QueryFields(init).Ok? && !t.Other?
    ensures QueryFields(init + [t]) == Ok(QueryFields(init).value["GetAll" + NameOf(t) := ListOf(t)]["GetById" + NameOf(t) := t])
  {
    assert (init + [t])[..|init|] == init;
  }

  /** A sequence of types that all have names gets a `Query` class, with a `GetAll<T>` and a `GetById<T>` field per type. */
  lemma {:induction false} QueryFieldsCover(queriable: seq<Ty>)
    requires forall t :: t in queriable ==> !t.Other?
    ensures QueryFields(queriable).Ok?
    ensures var m := QueryFields(queriable).value;
            forall t :: t in queriable ==> "GetAll" + NameOf(t) in m && "GetById" + NameOf(t) in m
  {
    if queriable != [] {
      var init, t := queriable[..|queriable| - 1], queriable[|queriable| - 1];
      assert queriable == init + [t];
      assert forall u :: u in init ==> u in queriable;
      QueryFieldsCover(init);
      QueryFieldsStep(init, t);
    }
  }

  /** Every field of the `Query` class is the `GetAll<T>` or `GetById<T>` field of a queriable type, with its type. */
  lemma {:induction false} QueryFieldsOnly(queriable: seq<Ty>)
    requires QueryFields(queriable).Ok?
    ensures var m := QueryFields(queriable).value;
            forall k :: k in m ==>
              exists t :: t in queriable && !t.Other?
                && ((k == "GetAll" + NameOf(t) && m[k] == ListOf(t)) || (k == "GetById" + NameOf(t) && m[k] == t))
  {
    if queriable != [] {
      var init, t := queriable[..|queriable| - 1], queriable[|queriable| - 1];
      assert queriable == init + [t];
      assert forall u :: u in init ==> u in queriable;
      QueryFieldsOnly(init);
      QueryFieldsStep(init, t);
    }
  }

  /** A queriable type whose name no other queriable type shares gets `List[T]` and `T`. */
  lemma {:induction false} QueryFieldsTyped(queriable: seq<Ty>, u: Ty)
    requires forall t :: t in queriable ==> !t.Other?
    requires u in queriable && forall v :: v in queriable && NameOf(v) == NameOf(u) ==> v == u
    ensures QueryFields(queriable).Ok?
    ensures var m := QueryFields(queriable).value;
            "GetAll" + NameOf(u) in m && m["GetAll" + NameOf(u)] == ListOf(u)
            && "GetById" + NameOf(u) in m && m["GetById" + NameOf(u)] == u
  {
    var init, t := queriable[..|queriable| - 1], queriable[|queriable| - 1];
    assert queriable == init + [t];
    assert forall v :: v in init ==> v in queriable;
    QueryFieldsCover(init);
    QueryFieldsStep(init, t);
    QueryNamesDiffer(NameOf(t), NameOf(u));
    QueryNamesDiffer(NameOf(u), NameOf(t));
    if u != t {
      assert NameOf(u) != NameOf(t);
      PrefixCancels("GetAll", NameOf(u), NameOf(t));
      PrefixCancels("GetById", NameOf(u), NameOf(t));
      assert u in init;
      QueryFieldsTyped(init, u);
    }
  }

  /** Lines 80-89: builds the `Query` class field by field over the queriable types. */
  method MakeQueryObject(queriable: seq<Ty>) returns (r: Result<map<string, Ty>, SchemaError>)
    ensures r == QueryFields(queriable)
  {
    var fields: map<string, Ty> := map[];
    var i := 0;
    while i < |queriable|
      invariant 0 <= i <= |queriable|
      invariant QueryFields(queriable[..i]) == Ok(fields)
    {
      var t := queriable[i];
      assert queriable[..i + 1][..i] == queriable[..i];
      if t.Other? {
        assert QueryFields(queriable[..i + 1]) == Err(NoName(t));
        QueryPrefixFails(queriable, i + 1);
        return Err(NoName(t));
      }
      fields := fields["GetAll" + NameOf(t) := ListOf(t)];
      fields := fields["GetById" + NameOf(t) := t];
      i := i + 1;
    }
    assert queriable[..i] == queriable;
    return Ok(fields);
  }

  /** Once a prefix fails, the whole sequence fails with the same error. */
  lemma {:induction false} QueryPrefixFails(queriable: seq<Ty>, i: nat)
    requires i <= |queriable| && QueryFields(queriable[..i]).Err?
    ensures QueryFields(queriable) == QueryFields(queriable[..i])
    decreases |queriable| - i
  {
    if i < |queriable| {
      assert queriable[..i + 1][..i] == queriable[..i];
      QueryPrefixFails(queriable, i + 1);
    } else {
      assert queriable[..i] == queriable;
    }
  }

  // ---------------------------------------------------------------------
  // Input types and the Mutation class

  /**
   * A hint the input type can call without arguments to make its default:
   * the scalar classes except `datetime` and `date`, a dataclass whose every
   * field has a default, and a generated class; typing aliases and values
   * that are not classes cannot be called.
   */
  predicate Instantiable(world: seq<ModelClass>, t: Ty) {
    match t
    case Scalar(k) => k != DateTime && k != Date
    case Model(_) => forall f :: f in Hints(world, t) ==> f.defaultNone
    case Generated(_) => true
    case _ => false
  }

  /** The generated input class: its name and its annotated fields, each set to a default made by calling its hint. */
  datatype InputType = InputType(name: string, fields: seq<Field>)

  /** The hints other than `id`, in order. */
  function WithoutId(fs: seq<Field>): (r: seq<Field>)
    ensures forall f :: f in r <==> f in fs && f.name != "id"
  {
    if fs == [] then []
    else
      assert forall f :: f in fs ==> f == fs[0] || f in fs[1..];
      (if fs[0].name == "id" then [] else [fs[0]]) + WithoutId(fs[1..])
  }

  /** Lines 134-137 over the hints in order: the first hint other than `id` that cannot be called fails. */
  function InputFields(world: seq<ModelClass>, fs: seq<Field>): (r: Result<seq<Field>, SchemaError>)
    ensures r.Err? ==> r.error.NotInstantiable? && !Instantiable(world, r.error.t)
  {
    if fs == [] then Ok([])
    else
      var init, f := fs[..|fs| - 1], fs[|fs| - 1];
      assert fs == init + [f];
      match InputFields(world, init)
      case Err(e) => Err(e)
      case Ok(ins) =>
        if f.name == "id" then Ok(ins)
        else if !Instantiable(world, f.ty) then Err(NotInstantiable(f.ty))
        else Ok(ins + [f])
  }

  lemma {:induction false} WithoutIdAppend(fs: seq<Field>, f: Field)
    ensures WithoutId(fs + [f]) == WithoutId(fs) + (if f.name == "id" then [] else [f])
  {
    if fs == [] {
      assert [] + [f] == [f];
    } else {
      assert (fs + [f])[1..] == fs[1..] + [f];
      WithoutIdAppend(fs[1..], f);
    }
  }

  /**
   * The input type copies every hint except `id`, in order, exactly when
   * every one of those hints can be called.
   */
  lemma {:induction false} InputFieldsCopyHints(world: seq<ModelClass>, fs: seq<Field>)
    ensures InputFields(world, fs).Ok? <==> forall f :: f in fs && f.name != "id" ==> Instantiable(world, f.ty)
    ensures InputFields(world, fs).Ok? ==> InputFields(world, fs).value == WithoutId(fs)
  {
    if fs != [] {
      var init, f := fs[..|fs| - 1], fs[|fs| - 1];
      assert fs == init + [f];
      InputFieldsCopyHints(world, init);
      WithoutIdAppend(init, f);
    }
  }

  /** Lines 131-139: the input class of a type, named `<T>Input`. */
  function InputTypeOf(world: seq<ModelClass>, t: Ty): (r: Result<InputType, SchemaError>)
    ensures t.Other? ==> r == Err(NoName(t))
  {
    if t.Other? then Err(NoName(t))
    else
      match InputFields(world, Hints(world, t))
      case Err(e) => Err(e)
      case Ok(ins) => Ok(InputType(NameOf(t) + "Input", ins))
  }

  /** Lines 131-139: builds the input class hint by hint. */
  method MakeInputTypeFromType(world: seq<ModelClass>, t: Ty) returns (r: Result<InputType, SchemaError>)
    ensures r == InputTypeOf(world, t)
  {
    if t.Other? {
      return Err(NoName(t));
    }
    var hs := Hints(world, t);
    var fields: seq<Field> := [];
    var i := 0;
    while i < |hs|
      invariant 0 <= i <= |hs|
      invariant InputFields(world, hs[..i]) == Ok(fields)
    {
      var h := hs[i];
      assert hs[..i + 1] == hs[..i] + [h];
      InputFieldsStep(world, hs[..i], h);
      if h.name != "id" {
        if !Instantiable(world, h.ty) {
          InputPrefixFails(world, hs, i + 1);
          return Err(NotInstantiable(h.ty));
        }
        fields := fields + [h];
      }
      i := i + 1;
    }
    assert hs[..i] == hs;
    return Ok(InputType(NameOf(t) + "Input", fields));
  }

  lemma InputFieldsStep(world: seq<ModelClass>, init: seq<Field>, f: Field)
    requires InputFields(world, init).Ok?
    ensures InputFields(world, init + [f])
            == if f.name == "id" then InputFields(world, init)
               else if !Instantiable(world, f.ty) then Err(NotInstantiable(f.ty))
               else Ok(InputFields(world, init).value + [f])
  {
    assert (init + [f])[..|init|] == init;
  }

  lemma {:induction false} InputPrefixFails(world: seq<ModelClass>, fs: seq<Field>, i: nat)
    requires i <= |fs| && InputFields(world, fs[..i]).Err?
    ensures InputFields(world, fs) == InputFields(world, fs[..i])
    decreases |fs| - i
  {
    if i < |fs| {
      assert fs[..i + 1][..i] == fs[..i];
      InputPrefixFails(world, fs, i + 1);
    } else {
      assert fs[..i] == fs;
    }
  }

  /** A `Create<T>` field of the `Mutation` class: it takes the input class and returns the type. */
  datatype MutationField = MutationField(input: InputType, output: Ty)

  /** Lines 65-78 over the mutable types in iteration order: the first type without an input class fails. */
  function MutationFields(world: seq<ModelClass>, mutable: seq<Ty>): (r: Result<map<string, MutationField>, SchemaError>)
  {
    if mutable == [] then Ok(map[])
    else
      var init, t := mutable[..|mutable| - 1], mutable[|mutable| - 1];
      assert mutable == init + [t];
      match MutationFields(world, init)
      case Err(e) => Err(e)
      case Ok(m) =>
        match InputTypeOf(world, t)
        case Err(e) => Err(e)
        case Ok(it) => Ok(m["Create" + NameOf(t) := MutationField(it, t)])
  }

  lemma MutationFieldsStep(world: seq<ModelClass>, init: seq<Ty>, t: Ty)
    requires MutationFields(world, init).Ok?
    ensures MutationFields(world, init + [t])
            == match InputTypeOf(world, t)
               case Err(e) => Err(e)
               case Ok(it) => Ok(MutationFields(world, init).value["Create" + NameOf(t) := MutationField(it, t)])
  {
    assert (init + [t])[..|init|] == init;
  }

  /** The `Mutation` class exists exactly when every mutable type has an input class. */
  lemma {:induction false} MutationFieldsExist(world: seq<ModelClass>, mutable: seq<Ty>)
    ensures MutationFields(world, mutable).Ok? <==> forall t :: t in mutable ==> InputTypeOf(world, t).Ok?
  {
    if mutable != [] {
      var init, t := mutable[..|mutable| - 1], mutable[|mutable| - 1];
      assert mutable == init + [t];
      assert forall u :: u in mutable ==> u in init || u == t;
      MutationFieldsExist(world, init);
      if MutationFields(world, init).Ok? {
        MutationFieldsStep(world, init, t);
      }
    }
  }

  /** Every mutable type gets a `Create<T>` field. */
  lemma {:induction false} MutationFieldsCover(world: seq<ModelClass>, mutable: seq<Ty>)
    requires MutationFields(world, mutable).Ok?
    ensures forall t :: t in mutable ==> !t.Other? && "Create" + NameOf(t) in MutationFields(world, mutable).value
  {
    if mutable != [] {
      var init, t := mutable[..|mutable| - 1], mutable[|mutable| - 1];
      assert mutable == init + [t];
      assert forall u :: u in init ==> u in mutable;
      MutationFieldsExist(world, mutable);
      MutationFieldsExist(world, init);
      MutationFieldsCover(world, init);
      MutationFieldsStep(world, init, t);
    }
  }

  /** Every field of the `Mutation` class is the `Create<T>` field of a mutable type and takes that type's input class. */
  lemma {:induction false} MutationFieldsOnly(world: seq<ModelClass>, mutable: seq<Ty>)
    requires MutationFields(world, mutable).Ok?
    ensures var m := MutationFields(world, mutable).value;
            forall k :: k in m ==>
              m[k].output in mutable && !m[k].output.Other? && k == "Create" + NameOf(m[k].output)
              && InputTypeOf(world, m[k].output) == Ok(m[k].input)
  {
    if mutable != [] {
      var init, t := mutable[..|mutable| - 1], mutable[|mutable| - 1];
      assert mutable == init + [t];
      MutationFieldsOnly(world, init);
      MutationFieldsStep(world, init, t);
      var m0, it := MutationFields(world, init).value, InputTypeOf(world, t).value;
      var m := MutationFields(world, mutable).value;
      assert m == m0["Create" + NameOf(t) := MutationField(it, t)];
      forall k | k in m
        ensures m[k].output in mutable && !m[k].output.Other? && k == "Create" + NameOf(m[k].output)
        ensures InputTypeOf(world, m[k].output) == Ok(m[k].input)
      {
        if k != "Create" + NameOf(t) {
          assert k in m0 && m[k] == m0[k] && m0[k].output in init;
        }
      }
    }
  }

  /** Lines 65-78: builds the `Mutation` class type by type. */
  method MakeMutationObject(world: seq<ModelClass>, mutable: seq<Ty>) returns (r: Result<map<string, MutationField>, SchemaError>)
    ensures r == MutationFields(world, mutable)
  {
    var fields: map<string, MutationField> := map[];
    var i := 0;
    while i < |mutable|
      invariant 0 <= i <= |mutable|
      invariant MutationFields(world, mutable[..i]) == Ok(fields)
    {
      var t := mutable[i];
      assert mutable[..i + 1][..i] == mutable[..i];
      var it := MakeInputTypeFromType(world, t);
      if it.Err? {
        assert MutationFields(world, mutable[..i + 1]) == Err(it.error);
        MutationPrefixFails(world, mutable, i + 1);
        return Err(it.error);
      }
      fields := fields["Create" + NameOf(t) := MutationField(it.value, t)];
      i := i + 1;
    }
    assert mutable[..i] == mutable;
    return Ok(fields);
  }

  lemma {:induction false} MutationPrefixFails(world: seq<ModelClass>, mutable: seq<Ty>, i: nat)
    requires i <= |mutable| && MutationFields(world, mutable[..i]).Err?
    ensures MutationFields(world, mutable) == MutationFields(world, mutable[..i])
    decreases |mutable| - i
  {
    if i < |mutable| {
      assert mutable[..i + 1][..i] == mutable[..i];
      MutationPrefixFails(world, mutable, i + 1);
    } else {
      assert mutable[..i] == mutable;
    }
  }

  /** The `Query` class exists exactly when every queriable value has a name. */
  lemma {:induction false} QueryFieldsExist(queriable: seq<Ty>)
    ensures QueryFields(queriable).Ok? <==> forall t :: t in queriable ==> !t.Other?
  {
    if queriable != [] {
      var init, t := queriable[..|queriable| - 1], queriable[|queriable| - 1];
      assert queriable == init + [t];
      assert forall u :: u in queriable ==> u in init || u == t;
      QueryFieldsExist(init);
    }
  }

  // ---------------------------------------------------------------------
  // The schema

  /** What a constructed schema holds besides its engine: the wiring of the collected classes and the two generated classes. */
  datatype SchemaParts = SchemaParts(tables: map<Ty, Table>, oneToMany: map<Ty, map<string, Ty>>,
                                     query: map<string, Ty>, mutation: map<string, MutationField>)

  /**
   * Lines 40-63, with the mutable set check of `MutableCheck`: the first
   * error raised, or what the constructor wires and generates.
   */
  function SchemaOf(world: seq<ModelClass>, queriable: seq<Ty>, mutable: Option<seq<Ty>>): (r: Result<SchemaParts, SchemaError>)
    ensures r.Ok? ==> r.value.tables.Keys == NestedModelTypes(world, queriable) != {}
  {
    if MutableCheck(queriable, mutable).Fail? then Err(NotSubset)
    else
      var mt := NestedModelTypes(world, queriable);
      NestedModelTypesClosed(world, queriable);
      if mt == {} then Err(NoModelTypes)
      else Wired(world, queriable, mutable, mt)
  }

  /** Lines 52-55: wiring the collected classes, then the `Query` and the `Mutation` classes. */
  function Wired(world: seq<ModelClass>, queriable: seq<Ty>, mutable: Option<seq<Ty>>, mt: set<Ty>): (r: Result<SchemaParts, SchemaError>)
    requires forall t :: t in mt ==> Collectable(t)
    ensures r.Ok? ==> r.value.tables.Keys == mt
  {
    if exists t :: t in mt && t.Scalar? then Err(ImmutableType)
    else
      match QueryFields(queriable)
      case Err(e) => Err(e)
      case Ok(q) =>
        match MutationFields(world, MutableTypes(mutable))
        case Err(e) => Err(e)
        case Ok(m) => Ok(SchemaParts(Tables(world, mt, mt), OneToManys(world, mt), q, m))
  }

  /**
   * Lines 40-63 as written, with the mutable check of `MutableCheckAsWritten`:
   * without a non-empty mutable set the constructor fails at line 44 before
   * it collects anything; with one it is `SchemaOf`.
   */
  function SchemaOfAsWritten(world: seq<ModelClass>, queriable: seq<Ty>, mutable: Option<seq<Ty>>): (r: Result<SchemaParts, SchemaError>)
    ensures MutableTypes(mutable) == [] ==> r == Err(NoIssubset)
    ensures MutableTypes(mutable) != [] ==> r == SchemaOf(world, queriable, mutable)
  {
    match MutableCheckAsWritten(queriable, mutable)
    case Fail(e) =>
      if e == NoIssubset then Err(NoIssubset)
      else
        MutableChecksAgree(queriable, mutable.value);
        Err(e)
    case Pass =>
      MutableChecksAgree(queriable, mutable.value);
      SchemaOf(world, queriable, mutable)
  }

  /** Wiring one more class adds its table. */
  lemma TablesStep(world: seq<ModelClass>, modelTypes: set<Ty>, done: set<Ty>, t: Ty, tables0: map<Ty, Table>)
    requires forall t :: t in modelTypes ==> Collectable(t)
    requires done <= modelTypes && t in modelTypes
    ensures (tables0 + Tables(world, modelTypes, done))[t := TableOf(world, modelTypes, t)]
            == tables0 + Tables(world, modelTypes, done + {t})
  {
    var f := x requires x in modelTypes => TableOf(world, modelTypes, x);
    MapStep(done, t, f);
    assert Tables(world, modelTypes, done) == (map x | x in done :: f(x));
    assert Tables(world, modelTypes, done + {t}) == (map x | x in done + {t} :: f(x));
    Maps.MergeUpdate(tables0, Tables(world, modelTypes, done), t, TableOf(world, modelTypes, t));
  }

  /** Wiring one more class adds its one-to-many map. */
  lemma OneToManysStep(world: seq<ModelClass>, done: set<Ty>, t: Ty, oneToMany0: map<Ty, map<string, Ty>>)
    ensures (oneToMany0 + OneToManys(world, done))[t := OneToMany(Hints(world, t))]
            == oneToMany0 + OneToManys(world, done + {t})
  {
    var g := x => OneToMany(Hints(world, x));
    MapStep(done, t, g);
    assert OneToManys(world, done) == (map x | x in done :: g(x));
    assert OneToManys(world, done + {t}) == (map x | x in done + {t} :: g(x));
    Maps.MergeUpdate(oneToMany0, OneToManys(world, done), t, OneToMany(Hints(world, t)));
  }

  lemma MapStep<V>(s: set<Ty>, t: Ty, f: Ty --> V)
    requires forall x :: x in s + {t} ==> f.requires(x)
    ensures (map x | x in s + {t} :: f(x)) == (map x | x in s :: f(x))[t := f(t)]
  {
  }

  /** `StrawchemySchema`: the state its constructor leaves on the schema and on the collected classes. */
  class StrawchemySchema {
    /** `__table__` of each collected class. */
    var tables: map<Ty, Table>
    /** `__one_to_many_foreign_keys__` of each collected class. */
    var oneToMany: map<Ty, map<string, Ty>>
    /** The annotated fields of the `Query` class. */
    var query: map<string, Ty>
    /** The annotated fields of the `Mutation` class. */
    var mutation: map<string, MutationField>

    function Parts(): SchemaParts
      reads this
    {
      SchemaParts(tables, oneToMany, query, mutation)
    }

    constructor Empty()
      ensures tables == map[] && oneToMany == map[] && query == map[] && mutation == map[]
    {
      tables, oneToMany, query, mutation := map[], map[], map[], map[];
    }

    /**
     * Lines 40-63: checks the mutable set, collects the model types, wires
     * them, and generates the `Query` and `Mutation` classes; fails exactly
     * when `SchemaOf` does, with the same error.
     */
    static method New(world: seq<ModelClass>, queriable: seq<Ty>, mutable: Option<seq<Ty>>)
      returns (r: Result<StrawchemySchema, SchemaError>)
      ensures r.Err? ==> SchemaOf(world, queriable, mutable) == Err(r.error)
      ensures r.Ok? ==> fresh(r.value) && SchemaOf(world, queriable, mutable) == Ok(r.value.Parts())
    {
      if MutableCheck(queriable, mutable).Fail? {
        return Err(NotSubset);
      }
      var modelTypes := NestedModelTypes(world, queriable);
      NestedModelTypesClosed(world, queriable);
      if modelTypes == {} {
        return Err(NoModelTypes);
      }
      r := Generate(world, queriable, mutable, modelTypes);
    }

    static method Generate(world: seq<ModelClass>, queriable: seq<Ty>, mutable: Option<seq<Ty>>, modelTypes: set<Ty>)
      returns (r: Result<StrawchemySchema, SchemaError>)
      requires forall t :: t in modelTypes ==> Collectable(t)
      ensures r.Err? ==> Wired(world, queriable, mutable, modelTypes) == Err(r.error)
      ensures r.Ok? ==> fresh(r.value) && Wired(world, queriable, mutable, modelTypes) == Ok(r.value.Parts())
    {
      var s := new StrawchemySchema.Empty();
      var wired := s.WireSqlalchemyIntoQueriables(world, modelTypes);
      if wired.Fail? {
        return Err(wired.error);
      }
      var q := MakeQueryObject(queriable);
      if q.Err? {
        return Err(q.error);
      }
      var m := MakeMutationObject(world, MutableTypes(mutable));
      if m.Err? {
        return Err(m.error);
      }
      Maps.MergeEmpty(Tables(world, modelTypes, modelTypes));
      Maps.MergeEmpty(OneToManys(world, modelTypes));
      s.query, s.mutation := q.value, m.value;
      return Ok(s);
    }

    /**
     * Lines 95-121: gives every collected class its one-to-many map and its
     * table, in any order; a collected scalar class refuses the first
     * `setattr`, and the classes wired before it keep their attributes.
     */
    method WireSqlalchemyIntoQueriables(world: seq<ModelClass>, modelTypes: set<Ty>) returns (r: Outcome<SchemaError>)
      requires forall t :: t in modelTypes ==> Collectable(t)
      modifies this
      ensures r.Fail? <==> exists t :: t in modelTypes && t.Scalar?
      ensures r.Fail? ==> r.error == ImmutableType
      ensures r.Pass? ==> tables == old(tables) + Tables(world, modelTypes, modelTypes)
                          && oneToMany == old(oneToMany) + OneToManys(world, modelTypes)
      ensures query == old(query) && mutation == old(mutation)
    {
      var wiredTables, wiredMaps;
      r, wiredTables, wiredMaps := WireTypes(world, modelTypes, tables, oneToMany);
      tables, oneToMany := wiredTables, wiredMaps;
    }
  }

  /**
   * The loop of lines 95-121 on the attribute maps: the classes in `modelTypes`
   * in any order, stopping at the first library scalar class.
   */
  method WireTypes(world: seq<ModelClass>, modelTypes: set<Ty>, tables0: map<Ty, Table>, maps0: map<Ty, map<string, Ty>>)
      returns (r: Outcome<SchemaError>, tables: map<Ty, Table>, oneToMany: map<Ty, map<string, Ty>>)
    requires forall t :: t in modelTypes ==> Collectable(t)
    ensures r.Fail? <==> exists t :: t in modelTypes && t.Scalar?
    ensures r.Fail? ==> r.error == ImmutableType
    ensures r.Pass? ==> tables == tables0 + Tables(world, modelTypes, modelTypes)
                        && oneToMany == maps0 + OneToManys(world, modelTypes)
  {
    var todo := modelTypes;
    ghost var done: set<Ty> := {};
    tables, oneToMany := tables0, maps0;
    while todo != {}
      invariant done == modelTypes - todo && todo <= modelTypes
      invariant forall t :: t in done ==> !t.Scalar?
      invariant tables == tables0 + Tables(world, modelTypes, done)
      invariant oneToMany == maps0 + OneToManys(world, done)
      decreases |todo|
    {
      var t :| t in todo;
      if t.Scalar? {
        return Fail(ImmutableType), tables, oneToMany;
      }
      TablesStep(world, modelTypes, done, t, tables0);
      OneToManysStep(world, done, t, maps0);
      oneToMany := oneToMany[t := OneToMany(Hints(world, t))];
      tables := tables[t := TableOf(world, modelTypes, t)];
      todo := todo - {t};
      done := done + {t};
    }
    assert done == modelTypes;
    r := Pass;
  }

  // ---------------------------------------------------------------------
  // What the constructor leads to

  /**
   * The constructor succeeds exactly when the mutable set is contained, some
   * class is collected, no collected class is a library scalar class, every
   * queriable value has a name and every mutable type has an input class.
   */
  lemma SchemaSucceeds(world: seq<ModelClass>, queriable: seq<Ty>, mutable: Option<seq<Ty>>)
    ensures SchemaOfAsWritten(world, queriable, mutable).Ok? <==>
              MutableTypes(mutable) != [] && SchemaOf(world, queriable, mutable).Ok?
    ensures SchemaOf(world, queriable, mutable).Ok? <==>
              && (forall t :: t in MutableTypes(mutable) ==> t in queriable)
              && NestedModelTypes(world, queriable) != {}
              && (forall t :: t in NestedModelTypes(world, queriable) ==> !t.Scalar?)
              && (forall t :: t in queriable ==> !t.Other?)
              && (forall t :: t in MutableTypes(mutable) ==> InputTypeOf(world, t).Ok?)
  {
    QueryFieldsExist(queriable);
    MutationFieldsExist(world, MutableTypes(mutable));
  }

  /**
   * A constructed schema wires a table into every class a queriable type
   * resolves to and into every class their followed hints resolve to, and
   * only into declared or generated classes.
   */
  lemma SchemaWiresReachableClasses(world: seq<ModelClass>, queriable: seq<Ty>, mutable: Option<seq<Ty>>)
    requires SchemaOf(world, queriable, mutable).Ok?
    ensures var p := SchemaOf(world, queriable, mutable).value;
            && (forall t :: t in queriable && Collectable(OriginModelType(t)) ==> OriginModelType(t) in p.tables)
            && ClosedOver(world, p.tables.Keys, p.tables.Keys)
            && (forall x :: x in p.tables ==> x.Model? || x.Generated?)
            && (forall x :: x in p.tables ==> p.tables[x] == TableOf(world, p.tables.Keys, x))
  {
    NestedModelTypesClosed(world, queriable);
  }

  /**
   * A followed `datetime`, `date`, `time` or `timedelta` hint of a queriable
   * class gets its class collected, and wiring it raises `TypeError`.
   */
  lemma LibraryHintRejected(world: seq<ModelClass>, queriable: seq<Ty>, mutable: Option<seq<Ty>>, x: Ty, f: Field)
    requires MutableCheck(queriable, mutable).Pass?
    requires x in queriable && Collectable(OriginModelType(x))
    requires f in Hints(world, OriginModelType(x)) && Followed(f) && f.ty.Scalar? && !IsBuiltin(f.ty.kind)
    ensures SchemaOf(world, queriable, mutable) == Err(ImmutableType)
  {
    NestedModelTypesClosed(world, queriable);
    assert f.ty in NestedModelTypes(world, queriable);
  }

  /** Values that resolve to no class collect nothing. */
  lemma NothingCollected(world: seq<ModelClass>, ts: seq<Ty>)
    requires forall t :: t in ts ==> !Collectable(OriginModelType(t))
    ensures NestedModelTypes(world, ts) == {}
  {
    NothingResolved(ts);
    var u := Universe(world, ts);
    assert Nested(world, u, ts, {}) == NestedLoop(world, u, [], {}, {});
  }

  lemma {:induction false} NothingResolved(ts: seq<Ty>)
    requires forall t :: t in ts ==> !Collectable(OriginModelType(t))
    ensures ResolvedTypes(ts) == []
  {
    if ts != [] {
      assert ts[0] in ts;
      assert forall t :: t in ts[1..] ==> t in ts;
      NothingResolved(ts[1..]);
    }
  }

  /**
   * tests/test_strawchemy_schema.py: no queriable type, or only `1` and `2`,
   * raises `TypeError` once the mutable set is corrected; as written the
   * missing mutable set fails first.
   */
  lemma NoQueriableClassRejected(world: seq<ModelClass>)
    ensures SchemaOf(world, [], None) == Err(NoModelTypes)
    ensures SchemaOf(world, [Other("1"), Other("2")], None) == Err(NoModelTypes)
    ensures SchemaOfAsWritten(world, [], None) == Err(NoIssubset)
    ensures SchemaOfAsWritten(world, [Other("1"), Other("2")], None) == Err(NoIssubset)
  {
    NothingCollected(world, []);
    NothingCollected(world, [Other("1"), Other("2")]);
  }

  /**
   * tests/test_strawchemy_schema.py: from `NestedModel`, `1` and `2` the
   * three nested classes are collected and wired once the mutable set is
   * corrected, but the `Query` class then asks `1` for its name; as written
   * the missing mutable set fails first.
   */
  lemma NonClassQueriableRejected(world: seq<ModelClass>, queriable: seq<Ty>)
    requires world == TestModels && queriable == [Model("NestedModel"), Other("1"), Other("2")]
    ensures SchemaOf(world, queriable, None) == Err(NoName(Other("1")))
    ensures SchemaOfAsWritten(world, queriable, None) == Err(NoIssubset)
  {
    NestedFixtureModels(world, queriable);
    OmittedMutableSet(queriable);
    SecondUnnamed(world, queriable, NestedModelTypes(world, queriable));
  }

  lemma SecondUnnamed(world: seq<ModelClass>, q: seq<Ty>, s: set<Ty>)
    requires |q| == 3 && q[0].Model? && q[1] == Other("1")
    requires MutableCheck(q, None).Pass?
    requires s == NestedModelTypes(world, q) && s != {} && forall t :: t in s ==> t.Model?
    ensures SchemaOf(world, q, None) == Err(NoName(Other("1")))
  {
    UnnamedQueriableRejected(world, q, None, 1);
  }

  lemma NestedFixtureModels(world: seq<ModelClass>, q: seq<Ty>)
    requires world == TestModels && q == [Model("NestedModel"), Other("1"), Other("2")]
    ensures NestedModelTypes(world, q) != {}
    ensures forall t :: t in NestedModelTypes(world, q) ==> t.Model?
  {
    NestedFixtureCollected();
    ModelsOnly(NestedModelTypes(world, q), "NestedModel", "NestedModelA", "NestedModelA1");
  }

  lemma ModelsOnly(r: set<Ty>, a: string, b: string, c: string)
    requires r == {Model(a), Model(b), Model(c)}
    ensures r != {} && forall t :: t in r ==> t.Model?
  {
    assert Model(a) in r;
  }

  /**
   * Once the classes are collected and wired, the first queriable value
   * without a name fails the `Query` class.
   */
  lemma UnnamedQueriableRejected(world: seq<ModelClass>, queriable: seq<Ty>, mutable: Option<seq<Ty>>, i: nat)
    requires MutableCheck(queriable, mutable).Pass?
    requires NestedModelTypes(world, queriable) != {}
    requires forall t :: t in NestedModelTypes(world, queriable) ==> t.Model?
    requires i < |queriable| && queriable[i].Other? && forall j :: 0 <= j < i ==> !queriable[j].Other?
    ensures SchemaOf(world, queriable, mutable) == Err(NoName(queriable[i]))
  {
    var init := queriable[..i];
    assert forall t :: t in init ==> !t.Other?;
    QueryFieldsCover(init);
    assert queriable[..i + 1][..i] == init;
    assert QueryFields(queriable[..i + 1]) == Err(NoName(queriable[i]));
    QueryPrefixFails(queriable, i + 1);
  }

  /**
   * tests/test_strawchemy_schema.py: `SimpleModel` alone is collected and
   * gets the table `simple_model` once the mutable set is corrected; as
   * written the missing mutable set fails first.
   */
  lemma SimpleModelSchema()
    ensures SchemaOfAsWritten([SimpleModel], [Model("SimpleModel")], None) == Err(NoIssubset)
    ensures SchemaOf([SimpleModel], [Model("SimpleModel")], None).Ok?
    ensures SchemaOf([SimpleModel], [Model("SimpleModel")], None).value.tables == map[Model("SimpleModel") := SimpleModelTable]
  {
    var world := [SimpleModel];
    forall c, f | c in world && f in c.fields ensures !Collectable(OriginModelType(f.ty)) {
      assert c == SimpleModel;
    }
    SimpleModelHints();
    SimpleModelWired(world);
    LeafClassSchema(world, Model("SimpleModel"), SimpleModelTable);
  }

  /** A declared class whose hints resolve to no class is the only class collected, and its table the only table. */
  lemma LeafClassSchema(world: seq<ModelClass>, x: Ty, table: Table)
    requires x.Model?
    requires forall c, f :: c in world && f in c.fields ==> !Collectable(OriginModelType(f.ty))
    requires TableOf(world, {x}, x) == table
    ensures SchemaOf(world, [x], None).Ok?
    ensures SchemaOf(world, [x], None).value.tables == map[x := table]
  {
    SingleCollected(world, [x], x);
    QueryFieldsCover([x]);
    SingleTable(world, x, table);
    assert Wired(world, [x], None, {x}).Ok?;
  }

  lemma SingleTable(world: seq<ModelClass>, x: Ty, table: Table)
    requires Collectable(x) && TableOf(world, {x}, x) == table
    ensures Tables(world, {x}, {x}) == map[x := table]
  {
  }
}
