/**
 * The manager of the older, dataclass-based generator: it validates the
 * discovered dataclasses, derives a Strawberry object class and a Strawberry
 * input class from each, attaches the `<Name>Db` SQLAlchemy classes, and
 * assembles a schema with four operations per dataclass.
 */
module LegacyStrawchemyManager {
  import opened Wrappers
  import opened ModelTypes
  import opened ModelValidation
  import opened RelationalMapping
  import opened LegacyMapping
  import Maps

  /** A class made by `type(name + suffix, (), ...)` and decorated by `strawberry.type` or `strawberry.input`. */
  datatype StrawberryType = StrawberryType(name: string, fields: seq<Field>)

  /** The attribute `member` that `setattr` sets on the dataclass named `owner`. */
  datatype Slot = Slot(owner: string, member: string)

  const ObjectTypeAttr := "__strawberry_type__"
  const InputTypeAttr := "__strawberry_input_type__"

  /** The discovered dataclasses are the values of a dict keyed by class name. */
  predicate UniqueNames(cs: seq<ModelClass>) {
    forall i, j :: 0 <= i < j < |cs| ==> cs[i].name != cs[j].name
  }

  // ---------------------------------------------------------------------
  // Deriving the Strawberry classes (`__create_strawberry_types`)

  /**
   * A field type once rewritten: the element class of a list, or a bare
   * dataclass, is replaced by its derived class, which is named after it
   * with the suffix.  Scalars stay as they are.
   */
  function ConvertedType(cs: seq<ModelClass>, t: Ty, suffix: string): Ty {
    if t.ListOf? && t.elem.Model? then ListOf(Generated(t.elem.name + suffix))
    else if IsListedModel(cs, t) then Generated(t.name + suffix)
    else t
  }

  /** A field of a derived class once rewritten; the input variant makes it optional with default `None`. */
  function ConvertedField(cs: seq<ModelClass>, f: Field, suffix: string, optional: bool): Field {
    var t := ConvertedType(cs, f.ty, suffix);
    if optional then Field(f.name, Opt(t), true) else Field(f.name, t, f.defaultNone)
  }

  function ConvertedFields(cs: seq<ModelClass>, fs: seq<Field>, suffix: string, optional: bool): seq<Field> {
    seq(|fs|, j requires 0 <= j < |fs| => ConvertedField(cs, fs[j], suffix, optional))
  }

  /** The class made for `c` from a copy of its namespace, before its fields are rewritten. */
  function CopiedClass(c: ModelClass, suffix: string): StrawberryType {
    StrawberryType(c.name + suffix, c.fields)
  }

  /** The class made for `c` once every field is rewritten. */
  function ConvertedClass(cs: seq<ModelClass>, c: ModelClass, suffix: string, optional: bool): StrawberryType {
    StrawberryType(c.name + suffix, ConvertedFields(cs, c.fields, suffix, optional))
  }

  /** The class made for `c` once its first `j` fields are rewritten. */
  function PartlyConverted(cs: seq<ModelClass>, c: ModelClass, suffix: string, optional: bool, j: nat): StrawberryType
    requires j <= |c.fields|
  {
    StrawberryType(c.name + suffix, ConvertedFields(cs, c.fields[..j], suffix, optional) + c.fields[j..])
  }

  function DerivedClass(cs: seq<ModelClass>, c: ModelClass, suffix: string, optional: bool, converted: bool): StrawberryType {
    if converted then ConvertedClass(cs, c, suffix, optional) else CopiedClass(c, suffix)
  }

  /** The attribute `member` of every dataclass in `ts`, each holding its derived class. */
  function Attrs(cs: seq<ModelClass>, ts: seq<ModelClass>, member: string, suffix: string, optional: bool, converted: bool)
    : map<Slot, StrawberryType>
  {
    if ts == [] then map[]
    else
      var n := |ts| - 1;
      Attrs(cs, ts[..n], member, suffix, optional, converted)[Slot(ts[n].name, member) := DerivedClass(cs, ts[n], suffix, optional, converted)]
  }

  /** What `__create_strawberry_types(conversion_fn, member, suffix, optional)` leaves on the dataclasses. */
  function DerivedTypes(cs: seq<ModelClass>, member: string, suffix: string, optional: bool): map<Slot, StrawberryType> {
    Attrs(cs, cs, member, suffix, optional, true)
  }

  /** Every derived class keeps the dataclass's field names and order; the input variant makes each field optional with default `None`, the object variant keeps the defaults. */
  lemma ConvertedClassShape(cs: seq<ModelClass>, c: ModelClass, suffix: string, optional: bool)
    ensures var d := ConvertedClass(cs, c, suffix, optional);
            && d.name == c.name + suffix
            && FieldNames(d.fields) == FieldNames(c.fields)
            && (optional ==> forall j :: 0 <= j < |d.fields| ==> d.fields[j].ty.Opt? && d.fields[j].defaultNone)
            && (!optional ==> forall j :: 0 <= j < |d.fields| ==> d.fields[j].defaultNone == c.fields[j].defaultNone)
  {
    var d := ConvertedClass(cs, c, suffix, optional);
    assert FieldNames(d.fields) == FieldNames(c.fields);
  }

  /** `g` with the suffix taken off its end, when it ends with it. */
  function Unsuffixed(g: string, suffix: string): string {
    if |suffix| <= |g| && g[|g| - |suffix|..] == suffix then g[..|g| - |suffix|] else g
  }

  /** Reads a derived field type back as the dataclass field type it came from. */
  function OriginalType(t: Ty, suffix: string, optional: bool): Ty {
    var u := if optional && t.Opt? then t.inner else t;
    if u.Generated? then Model(Unsuffixed(u.name, suffix))
    else if u.ListOf? && u.elem.Generated? then ListOf(Model(Unsuffixed(u.elem.name, suffix)))
    else u
  }

  lemma UnsuffixedCancels(n: string, suffix: string)
    ensures Unsuffixed(n + suffix, suffix) == n
  {
    assert (n + suffix)[|n|..] == suffix;
    assert (n + suffix)[..|n|] == n;
  }

  /**
   * Rewriting a field the validator accepts loses nothing: the dataclass
   * field type can be read back from the derived one.
   */
  lemma ConvertedTypeRoundTrip(cs: seq<ModelClass>, f: Field, suffix: string, optional: bool)
    requires LegacyWellFormed(cs, f.ty)
    ensures OriginalType(ConvertedField(cs, f, suffix, optional).ty, suffix, optional) == f.ty
  {
    if f.ty.ListOf? {
      UnsuffixedCancels(f.ty.elem.name, suffix);
    } else if f.ty.Model? {
      UnsuffixedCancels(f.ty.name, suffix);
    }
  }

  /**
   * After the rewrite a derived class refers to no dataclass: every class it
   * names, bare or as a list element, is the derived class of a dataclass.
   */
  lemma ConvertedRefersToDerived(cs: seq<ModelClass>, c: ModelClass, suffix: string, optional: bool, j: nat)
    requires LegacyValidModel(cs) && c in cs && j < |c.fields|
    ensures var t := ConvertedClass(cs, c, suffix, optional).fields[j].ty;
            var u := if t.Opt? then t.inner else t;
            var v := if u.ListOf? then u.elem else u;
            && !v.Model? && !v.Opt? && !v.ListOf?
            && (v.Generated? ==> exists k :: 0 <= k < |cs| && v.name == ConvertedClass(cs, cs[k], suffix, optional).name)
  {
    var i :| 0 <= i < |cs| && cs[i] == c;
    var ft := c.fields[j].ty;
    assert LegacyWellFormed(cs, ft);
    var n := if ft.ListOf? then ft.elem.name else if ft.Model? then ft.name else "";
    if ft.ListOf? || ft.Model? {
      assert n in Names(cs);
      var k :| 0 <= k < |cs| && Names(cs)[k] == n;
      assert ConvertedClass(cs, cs[k], suffix, optional).name == n + suffix;
    }
  }

  lemma AttrsStep(cs: seq<ModelClass>, ts: seq<ModelClass>, i: nat, member: string, suffix: string, optional: bool, converted: bool)
    requires i < |ts|
    ensures Attrs(cs, ts[..i + 1], member, suffix, optional, converted)
            == Attrs(cs, ts[..i], member, suffix, optional, converted)[Slot(ts[i].name, member) := DerivedClass(cs, ts[i], suffix, optional, converted)]
  {
    assert ts[..i + 1][..i] == ts[..i];
  }

  /** The attributes set are exactly `member` of each dataclass in `ts`. */
  lemma {:induction false} AttrsKeys(cs: seq<ModelClass>, ts: seq<ModelClass>, member: string, suffix: string, optional: bool, converted: bool)
    ensures forall s :: s in Attrs(cs, ts, member, suffix, optional, converted) <==>
                          s.member == member && exists p :: 0 <= p < |ts| && ts[p].name == s.owner
  {
    if ts != [] {
      var n := |ts| - 1;
      AttrsKeys(cs, ts[..n], member, suffix, optional, converted);
      forall s ensures s in Attrs(cs, ts, member, suffix, optional, converted) <==>
                       s.member == member && exists p :: 0 <= p < |ts| && ts[p].name == s.owner
      {
        if s.member == member && (exists p :: 0 <= p < |ts| && ts[p].name == s.owner) {
          var p :| 0 <= p < |ts| && ts[p].name == s.owner;
          if p < n {
            assert ts[..n][p].name == s.owner;
          }
        }
        if exists p :: 0 <= p < n && ts[..n][p].name == s.owner {
          var p :| 0 <= p < n && ts[..n][p].name == s.owner;
          assert ts[p].name == s.owner;
        }
      }
    }
  }

  /** Every attribute set is `member`. */
  lemma {:induction false} AttrsMember(cs: seq<ModelClass>, ts: seq<ModelClass>, member: string, suffix: string, optional: bool, converted: bool)
    ensures forall s :: s in Attrs(cs, ts, member, suffix, optional, converted) ==> s.member == member
  {
    if ts != [] {
      AttrsMember(cs, ts[..|ts| - 1], member, suffix, optional, converted);
    }
  }

  /** With unique names, the attribute of each dataclass holds that dataclass's derived class. */
  lemma {:induction false} AttrsAt(cs: seq<ModelClass>, ts: seq<ModelClass>, member: string, suffix: string, optional: bool, converted: bool, p: nat)
    requires UniqueNames(ts) && p < |ts|
    ensures Slot(ts[p].name, member) in Attrs(cs, ts, member, suffix, optional, converted)
    ensures Attrs(cs, ts, member, suffix, optional, converted)[Slot(ts[p].name, member)] == DerivedClass(cs, ts[p], suffix, optional, converted)
  {
    var n := |ts| - 1;
    if p < n {
      assert ts[..n][p] == ts[p];
      AttrsAt(cs, ts[..n], member, suffix, optional, converted, p);
    }
  }

  /** The dataclasses after `ts[i]` have no attribute set yet. */
  lemma AttrsLacks(cs: seq<ModelClass>, ts: seq<ModelClass>, member: string, suffix: string, optional: bool, converted: bool, i: nat)
    requires UniqueNames(ts) && i < |ts|
    ensures Slot(ts[i].name, member) !in Attrs(cs, ts[..i], member, suffix, optional, converted)
  {
    AttrsKeys(cs, ts[..i], member, suffix, optional, converted);
  }

  lemma AttrsSameKeys(cs: seq<ModelClass>, ts: seq<ModelClass>, member: string, suffix: string, optional: bool)
    ensures Attrs(cs, ts, member, suffix, optional, false).Keys == Attrs(cs, ts, member, suffix, optional, true).Keys
  {
    AttrsKeys(cs, ts, member, suffix, optional, false);
    AttrsKeys(cs, ts, member, suffix, optional, true);
  }



  lemma PartlyConvertedStep(cs: seq<ModelClass>, c: ModelClass, suffix: string, optional: bool, j: nat)
    requires j < |c.fields|
    ensures var d := PartlyConverted(cs, c, suffix, optional, j);
            d.fields[j] == c.fields[j]
            && d.(fields := d.fields[j := ConvertedField(cs, c.fields[j], suffix, optional)]) == PartlyConverted(cs, c, suffix, optional, j + 1)
  {
    var d := PartlyConverted(cs, c, suffix, optional, j);
    var e := PartlyConverted(cs, c, suffix, optional, j + 1);
    assert |d.fields| == |c.fields|;
    assert c.fields[j..][0] == c.fields[j];
    assert d.fields[j := ConvertedField(cs, c.fields[j], suffix, optional)] == e.fields;
  }

  lemma PartlyConvertedEnds(cs: seq<ModelClass>, c: ModelClass, suffix: string, optional: bool)
    ensures PartlyConverted(cs, c, suffix, optional, 0) == CopiedClass(c, suffix)
    ensures PartlyConverted(cs, c, suffix, optional, |c.fields|) == ConvertedClass(cs, c, suffix, optional)
  {
    assert c.fields[..|c.fields|] == c.fields;
    assert c.fields[0..] == c.fields;
  }

  // ---------------------------------------------------------------------
  // The schema (`schema` property)

  /** A resolver argument with its annotation (`info` is Strawberry's own and is not an argument). */
  datatype Argument = Argument(name: string, ty: Ty)

  /** A field `__add_attr` sets on the `Query` or `Mutation` class: its resolver's arguments and return annotation. */
  datatype Operation = Operation(args: seq<Argument>, output: Ty)

  /** `<T>All` and `<T>ById` on the `Query` class for the object class named `t`. */
  function QueryOperations(objects: seq<string>): (r: map<string, Operation>)
    ensures |r| <= 2 * |objects|
  {
    if objects == [] then map[]
    else
      var n := |objects| - 1;
      var t := objects[n];
      QueryOperations(objects[..n])
        [t + "All" := Operation([], ListOf(Generated(t)))]
        [t + "ById" := Operation([Argument("_id", IntType)], Opt(Generated(t)))]
  }

  /** `<T>Upsert` and `<T>Delete` on the `Mutation` class for the object class `t` and its input class `t'`. */
  function MutationOperations(objects: seq<string>, inputs: seq<string>): (r: map<string, Operation>)
    requires |objects| == |inputs|
    ensures |r| <= 2 * |objects|
  {
    if objects == [] then map[]
    else
      var n := |objects| - 1;
      var t := objects[n];
      MutationOperations(objects[..n], inputs[..n])
        [t + "Upsert" := Operation([Argument("input", Generated(inputs[n]))], Opt(Generated(t)))]
        [t + "Delete" := Operation([Argument("id", IntType)], Scalar(Bool))]
  }

  /** The last characters of `a + s` are those of `s`. */
  lemma EndsWith(a: string, s: string, k: nat)
    requires 0 < k <= |s|
    ensures (a + s)[|a + s| - k] == s[|s| - k]
  {
  }

  /** The four operation names of two classes coincide only when the classes and the suffixes do. */
  lemma OperationNamesDistinct(a: string, b: string, sa: string, sb: string)
    requires sa in ["All", "ById", "Upsert", "Delete"] && sb in ["All", "ById", "Upsert", "Delete"]
    ensures a + sa == b + sb <==> a == b && sa == sb
  {
    EndsWith(a, sa, 1);
    EndsWith(b, sb, 1);
    assert (a + sa)[..|a|] == a && (b + sb)[..|b|] == b;
  }

  predicate Distinct(ns: seq<string>) {
    forall i, j :: 0 <= i < j < |ns| ==> ns[i] != ns[j]
  }

  /** The `Query` class has no field other than `<T>All` and `<T>ById` of the classes listed. */
  lemma {:induction false} QueryOperationsOnly(objects: seq<string>)
    ensures forall k :: k in QueryOperations(objects) ==>
              exists p :: 0 <= p < |objects| && (k == objects[p] + "All" || k == objects[p] + "ById")
  {
    if objects != [] {
      var n := |objects| - 1;
      QueryOperationsOnly(objects[..n]);
      forall k | k in QueryOperations(objects)
        ensures exists p :: 0 <= p < |objects| && (k == objects[p] + "All" || k == objects[p] + "ById")
      {
        if k != objects[n] + "All" && k != objects[n] + "ById" {
          assert k in QueryOperations(objects[..n]);
          var p :| 0 <= p < n && (k == objects[..n][p] + "All" || k == objects[..n][p] + "ById");
          assert objects[..n][p] == objects[p];
        }
      }
    }
  }

  /** With distinct class names, each class keeps the `<T>All` and `<T>ById` fields its own step set. */
  lemma {:induction false} QueryOperationsAt(objects: seq<string>, p: nat)
    requires Distinct(objects) && p < |objects|
    ensures objects[p] + "All" in QueryOperations(objects)
    ensures objects[p] + "ById" in QueryOperations(objects)
    ensures QueryOperations(objects)[objects[p] + "All"] == Operation([], ListOf(Generated(objects[p])))
    ensures QueryOperations(objects)[objects[p] + "ById"] == Operation([Argument("_id", IntType)], Opt(Generated(objects[p])))
  {
    var n := |objects| - 1;
    if p < n {
      var t := objects[n];
      assert objects[..n][p] == objects[p];
      assert Distinct(objects[..n]);
      QueryOperationsAt(objects[..n], p);
      OperationNamesDistinct(objects[p], t, "All", "All");
      OperationNamesDistinct(objects[p], t, "All", "ById");
      OperationNamesDistinct(objects[p], t, "ById", "All");
      OperationNamesDistinct(objects[p], t, "ById", "ById");
    } else {
      OperationNamesDistinct(objects[p], objects[p], "All", "ById");
    }
  }

  /** The `Mutation` class has no field other than `<T>Upsert` and `<T>Delete` of the classes listed. */
  lemma {:induction false} MutationOperationsOnly(objects: seq<string>, inputs: seq<string>)
    requires |objects| == |inputs|
    ensures forall k :: k in MutationOperations(objects, inputs) ==>
              exists p :: 0 <= p < |objects| && (k == objects[p] + "Upsert" || k == objects[p] + "Delete")
  {
    if objects != [] {
      var n := |objects| - 1;
      MutationOperationsOnly(objects[..n], inputs[..n]);
      forall k | k in MutationOperations(objects, inputs)
        ensures exists p :: 0 <= p < |objects| && (k == objects[p] + "Upsert" || k == objects[p] + "Delete")
      {
        if k != objects[n] + "Upsert" && k != objects[n] + "Delete" {
          assert k in MutationOperations(objects[..n], inputs[..n]);
          var p :| 0 <= p < n && (k == objects[..n][p] + "Upsert" || k == objects[..n][p] + "Delete");
          assert objects[..n][p] == objects[p];
        }
      }
    }
  }

  /** With distinct class names, each class keeps the `<T>Upsert` and `<T>Delete` fields its own step set. */
  lemma {:induction false} MutationOperationsAt(objects: seq<string>, inputs: seq<string>, p: nat)
    requires |objects| == |inputs| && Distinct(objects) && p < |objects|
    ensures objects[p] + "Upsert" in MutationOperations(objects, inputs)
    ensures objects[p] + "Delete" in MutationOperations(objects, inputs)
    ensures MutationOperations(objects, inputs)[objects[p] + "Upsert"] == Operation([Argument("input", Generated(inputs[p]))], Opt(Generated(objects[p])))
    ensures MutationOperations(objects, inputs)[objects[p] + "Delete"] == Operation([Argument("id", IntType)], Scalar(Bool))
  {
    var n := |objects| - 1;
    if p < n {
      var t := objects[n];
      assert objects[..n][p] == objects[p] && inputs[..n][p] == inputs[p];
      assert Distinct(objects[..n]);
      MutationOperationsAt(objects[..n], inputs[..n], p);
      OperationNamesDistinct(objects[p], t, "Upsert", "Upsert");
      OperationNamesDistinct(objects[p], t, "Upsert", "Delete");
      OperationNamesDistinct(objects[p], t, "Delete", "Upsert");
      OperationNamesDistinct(objects[p], t, "Delete", "Delete");
    } else {
      OperationNamesDistinct(objects[p], objects[p], "Upsert", "Delete");
    }
  }

  /** The names of the derived classes stored under `member`, dataclass by dataclass. */
  function SlotNames(d: map<Slot, StrawberryType>, ts: seq<ModelClass>, member: string): (r: seq<string>)
    requires forall p :: 0 <= p < |ts| ==> Slot(ts[p].name, member) in d
  {
    seq(|ts|, p requires 0 <= p < |ts| => d[Slot(ts[p].name, member)].name)
  }

  lemma QueryOperationsStep(objects: seq<string>, t: string)
    ensures QueryOperations(objects + [t])
            == QueryOperations(objects)[t + "All" := Operation([], ListOf(Generated(t)))]
                                       [t + "ById" := Operation([Argument("_id", IntType)], Opt(Generated(t)))]
  {
    assert (objects + [t])[..|objects|] == objects;
  }

  lemma MutationOperationsStep(objects: seq<string>, inputs: seq<string>, t: string, t': string)
    requires |objects| == |inputs|
    ensures MutationOperations(objects + [t], inputs + [t'])
            == MutationOperations(objects, inputs)[t + "Upsert" := Operation([Argument("input", Generated(t'))], Opt(Generated(t)))]
                                                  [t + "Delete" := Operation([Argument("id", IntType)], Scalar(Bool))]
  {
    assert (objects + [t])[..|objects|] == objects;
    assert (inputs + [t'])[..|inputs|] == inputs;
  }

  /** With unique dataclass names, the classes stored under `member` are named after the dataclasses with the suffix. */
  lemma DerivedNamesOf(cs: seq<ModelClass>, d: map<Slot, StrawberryType>, member: string, suffix: string, optional: bool)
    requires UniqueNames(cs)
    requires forall s :: s in DerivedTypes(cs, member, suffix, optional) ==> s in d && d[s] == DerivedTypes(cs, member, suffix, optional)[s]
    ensures forall p :: 0 <= p < |cs| ==> Slot(cs[p].name, member) in d
    ensures SlotNames(d, cs, member) == seq(|cs|, p requires 0 <= p < |cs| => cs[p].name + suffix)
  {
    forall p | 0 <= p < |cs|
      ensures Slot(cs[p].name, member) in d && d[Slot(cs[p].name, member)].name == cs[p].name + suffix
    {
      AttrsAt(cs, cs, member, suffix, optional, true, p);
    }
  }

  /**
   * After `__init__` the object classes are named after the dataclasses and
   * the input classes after them with `Input`.
   */
  lemma DerivedNames(cs: seq<ModelClass>)
    requires UniqueNames(cs)
    ensures var d := DerivedTypes(cs, ObjectTypeAttr, "", false) + DerivedTypes(cs, InputTypeAttr, "Input", true);
            && (forall p :: 0 <= p < |cs| ==> Slot(cs[p].name, ObjectTypeAttr) in d && Slot(cs[p].name, InputTypeAttr) in d)
            && SlotNames(d, cs, ObjectTypeAttr) == Names(cs)
            && SlotNames(d, cs, InputTypeAttr) == InputNames(cs)
  {
    var a := DerivedTypes(cs, ObjectTypeAttr, "", false);
    var b := DerivedTypes(cs, InputTypeAttr, "Input", true);
    var d: map<Slot, StrawberryType> := a + b;
    AttrsMember(cs, cs, InputTypeAttr, "Input", true, true);
    assert |ObjectTypeAttr| != |InputTypeAttr|;
    forall s | s in a ensures s in d && d[s] == a[s] {
      AttrsMember(cs, cs, ObjectTypeAttr, "", false, true);
      assert s !in b;
    }
    DerivedNamesOf(cs, d, ObjectTypeAttr, "", false);
    DerivedNamesOf(cs, d, InputTypeAttr, "Input", true);
    assert SlotNames(d, cs, ObjectTypeAttr) == Names(cs) by {
      forall p | 0 <= p < |cs| ensures cs[p].name + "" == cs[p].name { }
    }
  }

  // ---------------------------------------------------------------------
  // The manager

  class StrawchemyManager {
    /** The discovered dataclasses, in the dict's order. */
    var models: seq<ModelClass>
    /** The `__strawberry_type__` and `__strawberry_input_type__` attributes set on them. */
    var derived: map<Slot, StrawberryType>
    /** The `<Name>Db` classes with their table names, columns and relationships. */
    var mapper: LegacyMapper

    constructor (models: seq<ModelClass>)
      ensures this.models == models && derived == map[]
      ensures fresh(mapper) && mapper.tableNames == map[] && mapper.attrs == map[] && mapper.registered == []
    {
      this.models := models;
      derived := map[];
      mapper := new LegacyMapper();
    }

    /**
     * `__init__` once the dataclasses are discovered: validation (raising
     * `ValueError`), the object classes, the input classes, then the `Db`
     * classes.
     */
    static method Init(discovered: seq<ModelClass>) returns (r: Result<StrawchemyManager, ValidationError>)
      requires UniqueNames(discovered)
      ensures r.Err? <==> ValidateModelClassesLegacy(discovered).Fail?
      ensures r.Err? ==> r.error == ValidateModelClassesLegacy(discovered).error
      ensures r.Ok? ==> fresh(r.value) && fresh(r.value.mapper) && r.value.models == discovered
      ensures r.Ok? ==> r.value.derived == DerivedTypes(discovered, ObjectTypeAttr, "", false) + DerivedTypes(discovered, InputTypeAttr, "Input", true)
      ensures r.Ok? ==> && r.value.mapper.tableNames == LegacyTableNames(discovered)
                        && ClassesAccepted(LegacyManager, discovered, discovered)
                        && r.value.mapper.attrs == Applied(map[], AllWrites(LegacyManager, discovered, discovered))
                        && r.value.mapper.registered == HolderNames(true, discovered)
    {
      var v := ValidateModelClassesLegacy(discovered);
      if v.Fail? {
        return Err(v.error);
      }
      var m := new StrawchemyManager(discovered);
      m.CreateStrawberryTypes(ObjectTypeAttr, "", false);
      Maps.MergeEmpty(DerivedTypes(discovered, ObjectTypeAttr, "", false));
      m.CreateStrawberryTypes(InputTypeAttr, "Input", true);
      m.mapper.CreateDbTypes(discovered);
      Maps.MergeEmpty(LegacyTableNames(discovered));
      return Ok(m);
    }

    /**
     * `__create_strawberry_types`: a class named `name + suffix` is made for
     * every dataclass and stored under `member`, then every field of every
     * such class is rewritten in place.
     */
    method CreateStrawberryTypes(member: string, suffix: string, optional: bool)
      modifies this
      requires UniqueNames(models)
      ensures models == old(models) && mapper == old(mapper)
      ensures derived == old(derived) + DerivedTypes(models, member, suffix, optional)
    {
      CopyClasses(member, suffix, optional);
      ghost var base := derived;
      var i := 0;
      while i < |models|
        invariant i <= |models|
        invariant models == old(models) && mapper == old(mapper)
        invariant derived == base + Attrs(models, models[..i], member, suffix, optional, true)
      {
        AttrsAt(models, models, member, suffix, optional, false, i);
        RewriteFields(i, member, suffix, optional, base);
        i := i + 1;
      }
      assert models[..i] == models;
      AttrsSameKeys(models, models, member, suffix, optional);
      Maps.OverrideAll(old(derived), Attrs(models, models, member, suffix, optional, false), DerivedTypes(models, member, suffix, optional));
    }

    /** The copies of lines 95-97: one class per model, named with the suffix, attached under `member`. */
    method CopyClasses(member: string, suffix: string, optional: bool)
      modifies this
      ensures models == old(models) && mapper == old(mapper)
      ensures derived == old(derived) + Attrs(models, models, member, suffix, optional, false)
    {
      var i := 0;
      while i < |models|
        invariant i <= |models|
        invariant models == old(models) && mapper == old(mapper)
        invariant derived == old(derived) + Attrs(models, models[..i], member, suffix, optional, false)
      {
        AttrsStep(models, models, i, member, suffix, optional, false);
        Maps.MergeUpdate(old(derived), Attrs(models, models[..i], member, suffix, optional, false),
                                 Slot(models[i].name, member), CopiedClass(models[i], suffix));
        derived := derived[Slot(models[i].name, member) := StrawberryType(models[i].name + suffix, models[i].fields)];
        i := i + 1;
      }
      assert models[..i] == models;
    }

    /** The rewrite of lines 105-113 over the fields of the class derived from `models[i]`. */
    method RewriteFields(i: nat, member: string, suffix: string, optional: bool, ghost base: map<Slot, StrawberryType>)
      modifies this
      requires UniqueNames(models) && i < |models|
      requires derived == base + Attrs(models, models[..i], member, suffix, optional, true)
      requires Slot(models[i].name, member) in base && base[Slot(models[i].name, member)] == CopiedClass(models[i], suffix)
      ensures models == old(models) && mapper == old(mapper)
      ensures derived == base + Attrs(models, models[..i + 1], member, suffix, optional, true)
    {
      var c := models[i];
      var key := Slot(c.name, member);
      ghost var before := derived;
      AttrsLacks(models, models, member, suffix, optional, true, i);
      PartlyConvertedEnds(models, c, suffix, optional);
      Maps.UpdateSame(before, key);
      var j := 0;
      while j < |c.fields|
        invariant j <= |c.fields|
        invariant models == old(models) && mapper == old(mapper)
        invariant derived == before[key := PartlyConverted(models, c, suffix, optional, j)]
      {
        var f := derived[key].fields[j];
        PartlyConvertedStep(models, c, suffix, optional, j);
        var ty := f.ty;
        var dflt := f.defaultNone;
        if ty.ListOf? && ty.elem.Model? {
          ty := ListOf(Generated(ty.elem.name + suffix));
        } else if ty.Model? && ty.name in Names(models) {
          ty := Generated(ty.name + suffix);
        }
        if optional {
          ty := Opt(ty);
          dflt := true;
        }
        derived := derived[key := derived[key].(fields := derived[key].fields[j := Field(f.name, ty, dflt)])];
        j := j + 1;
      }
      AttrsStep(models, models, i, member, suffix, optional, true);
      Maps.MergeUpdate(base, Attrs(models, models[..i], member, suffix, optional, true), key, ConvertedClass(models, c, suffix, optional));
    }

    /**
     * The `schema` property: for each dataclass, `<T>All` and `<T>ById` on
     * `Query`, `<T>Upsert` and `<T>Delete` on `Mutation`, where `T` is the
     * name of its object class.
     */
    method Schema() returns (query: map<string, Operation>, mutation: map<string, Operation>)
      requires forall p :: 0 <= p < |models| ==> Slot(models[p].name, ObjectTypeAttr) in derived && Slot(models[p].name, InputTypeAttr) in derived
      ensures query == QueryOperations(SlotNames(derived, models, ObjectTypeAttr))
      ensures mutation == MutationOperations(SlotNames(derived, models, ObjectTypeAttr), SlotNames(derived, models, InputTypeAttr))
    {
      ghost var objects := SlotNames(derived, models, ObjectTypeAttr);
      ghost var inputs := SlotNames(derived, models, InputTypeAttr);
      query, mutation := map[], map[];
      var i := 0;
      while i < |models|
        invariant i <= |models|
        invariant query == QueryOperations(objects[..i])
        invariant mutation == MutationOperations(objects[..i], inputs[..i])
      {
        var t := derived[Slot(models[i].name, ObjectTypeAttr)].name;
        var input := derived[Slot(models[i].name, InputTypeAttr)].name;
        assert objects[..i + 1] == objects[..i] + [t] && inputs[..i + 1] == inputs[..i] + [input];
        QueryOperationsStep(objects[..i], t);
        MutationOperationsStep(objects[..i], inputs[..i], t, input);
        query := query[t + "All" := Operation([], ListOf(Generated(t)))];
        query := query[t + "ById" := Operation([Argument("_id", IntType)], Opt(Generated(t)))];
        mutation := mutation[t + "Upsert" := Operation([Argument("input", Generated(input))], Opt(Generated(t)))];
        mutation := mutation[t + "Delete" := Operation([Argument("id", IntType)], Scalar(Bool))];
        i := i + 1;
      }
      assert objects[..i] == objects && inputs[..i] == inputs;
    }
  }

  /** The input class names: each dataclass name followed by `Input`. */
  function InputNames(cs: seq<ModelClass>): (r: seq<string>)
    ensures |r| == |cs|
  {
    seq(|cs|, p requires 0 <= p < |cs| => cs[p].name + "Input")
  }

  lemma UniqueNamesDistinct(cs: seq<ModelClass>)
    requires UniqueNames(cs)
    ensures Distinct(Names(cs))
  {
  }

  /**
   * With distinct class names the schema offers exactly four operations per
   * class `T`: `<T>All` and `<T>ById` on `Query`, `<T>Upsert` (taking the
   * class's input class) and `<T>Delete` on `Mutation`.
   */
  lemma FourOperationsPerModel(objects: seq<string>, inputs: seq<string>)
    requires |objects| == |inputs| && Distinct(objects)
    ensures var q := QueryOperations(objects);
            var m := MutationOperations(objects, inputs);
            && (forall k :: k in q ==> exists p :: 0 <= p < |objects| && (k == objects[p] + "All" || k == objects[p] + "ById"))
            && (forall k :: k in m ==> exists p :: 0 <= p < |objects| && (k == objects[p] + "Upsert" || k == objects[p] + "Delete"))
            && (forall p :: 0 <= p < |objects| ==>
                  && objects[p] + "All" in q && objects[p] + "ById" in q
                  && objects[p] + "Upsert" in m && objects[p] + "Delete" in m
                  && q[objects[p] + "All"] == Operation([], ListOf(Generated(objects[p])))
                  && q[objects[p] + "ById"] == Operation([Argument("_id", IntType)], Opt(Generated(objects[p])))
                  && m[objects[p] + "Upsert"] == Operation([Argument("input", Generated(inputs[p]))], Opt(Generated(objects[p])))
                  && m[objects[p] + "Delete"] == Operation([Argument("id", IntType)], Scalar(Bool)))
  {
    QueryOperationsOnly(objects);
    MutationOperationsOnly(objects, inputs);
    forall p | 0 <= p < |objects|
      ensures && objects[p] + "All" in QueryOperations(objects) && objects[p] + "ById" in QueryOperations(objects)
              && objects[p] + "Upsert" in MutationOperations(objects, inputs) && objects[p] + "Delete" in MutationOperations(objects, inputs)
              && QueryOperations(objects)[objects[p] + "All"] == Operation([], ListOf(Generated(objects[p])))
              && QueryOperations(objects)[objects[p] + "ById"] == Operation([Argument("_id", IntType)], Opt(Generated(objects[p])))
              && MutationOperations(objects, inputs)[objects[p] + "Upsert"] == Operation([Argument("input", Generated(inputs[p]))], Opt(Generated(objects[p])))
              && MutationOperations(objects, inputs)[objects[p] + "Delete"] == Operation([Argument("id", IntType)], Scalar(Bool))
    {
      QueryOperationsAt(objects, p);
      MutationOperationsAt(objects, inputs, p);
    }
  }
}
