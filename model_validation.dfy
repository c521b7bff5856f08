/**
 * Model validation: the fail-fast checks run over the model classes before
 * any table or input type is derived, in the current version (strawberry
 * types, `Optional` and `List` wrappers) and the legacy version (dataclasses),
 * and the legacy `ensure_nullable_ids`.
 */
module ModelValidation {
  import opened Wrappers
  import opened ModelTypes
  import opened Fixtures

  /**
   * The reasons validation rejects a class; each names the class and, for
   * field errors, the field and the offending (inner) type.
   */
  datatype ValidationError =
    | MissingId(typeName: string)
    | NestedWrapper(typeName: string, fieldName: string, inner: Ty)
    | DisallowedListElement(typeName: string, fieldName: string, elem: Ty)
    | DisallowedOptional(typeName: string, fieldName: string, inner: Ty)
    | DisallowedType(typeName: string, fieldName: string, ty: Ty)
  {
    function TypeName(): string {
      match this
      case MissingId(t) => t
      case NestedWrapper(t, _, _) => t
      case DisallowedListElement(t, _, _) => t
      case DisallowedOptional(t, _, _) => t
      case DisallowedType(t, _, _) => t
    }
  }

  /** `("id", int)` is among the (name, type) pairs of the class's fields. */
  predicate HasIntId(c: ModelClass) {
    exists j :: 0 <= j < |c.fields| && c.fields[j].name == "id" && c.fields[j].ty == IntType
  }

  /** `allowed_types`: the keys of `MAPPED_TYPES` and the listed classes. */
  predicate Allowed(cs: seq<ModelClass>, t: Ty) {
    IsMapped(t) || IsListedModel(cs, t)
  }

  predicate IsWrapper(t: Ty) {
    t.Opt? || t.ListOf?
  }

  /** The wrapped type of an `Optional` or `List`. */
  function OfType(t: Ty): Ty
    requires IsWrapper(t)
  {
    if t.Opt? then t.inner else t.elem
  }

  /**
   * The shapes the current validator accepts, stated independently of its
   * branch order: a mapped scalar or listed class, `Optional` of one of those,
   * or a `List` of a listed class.
   */
  predicate WellFormedType(cs: seq<ModelClass>, t: Ty) {
    Allowed(cs, t)
    || (t.Opt? && Allowed(cs, t.inner))
    || (t.ListOf? && IsListedModel(cs, t.elem))
  }

  // ---------------------------------------------------------------------
  // strawchemy/model_validation.py

  /** The checks of one field, in the source's order. */
  function CheckField(cs: seq<ModelClass>, typeName: string, f: Field): (r: Outcome<ValidationError>)
    ensures r.Pass? <==> WellFormedType(cs, f.ty)
    ensures r.Fail? ==> r.error.TypeName() == typeName && !r.error.MissingId?
    ensures IsWrapper(f.ty) && IsWrapper(OfType(f.ty)) ==>
              r == Fail(NestedWrapper(typeName, f.name, OfType(OfType(f.ty))))
    ensures f.ty.ListOf? && !IsWrapper(f.ty.elem) && !IsListedModel(cs, f.ty.elem) ==>
              r == Fail(DisallowedListElement(typeName, f.name, f.ty.elem))
  {
    if IsWrapper(f.ty) && IsWrapper(OfType(f.ty)) then
      Fail(NestedWrapper(typeName, f.name, OfType(OfType(f.ty))))
    else if f.ty.ListOf? then
      if IsListedModel(cs, f.ty.elem) then Pass
      else Fail(DisallowedListElement(typeName, f.name, f.ty.elem))
    else if f.ty.Opt? then
      if Allowed(cs, f.ty.inner) then Pass
      else Fail(DisallowedOptional(typeName, f.name, f.ty.inner))
    else if !Allowed(cs, f.ty) then
      Fail(DisallowedType(typeName, f.name, f.ty))
    else Pass
  }

  /** The first failing field check, in field order. */
  function CheckFields(cs: seq<ModelClass>, typeName: string, fs: seq<Field>): (r: Outcome<ValidationError>)
    ensures r.Fail? ==> r.error.TypeName() == typeName && !r.error.MissingId?
  {
    if fs == [] then Pass
    else if CheckField(cs, typeName, fs[0]).Fail? then CheckField(cs, typeName, fs[0])
    else CheckFields(cs, typeName, fs[1..])
  }

  /** One class: the id check first, then its fields. */
  function CheckClass(cs: seq<ModelClass>, c: ModelClass): (r: Outcome<ValidationError>)
    ensures !HasIntId(c) ==> r == Fail(MissingId(c.name))
    ensures r.Fail? ==> r.error.TypeName() == c.name
  {
    if !HasIntId(c) then Fail(MissingId(c.name)) else CheckClassFields(cs, c)
  }

  function CheckClassFields(cs: seq<ModelClass>, c: ModelClass): (r: Outcome<ValidationError>)
    ensures r.Fail? ==> r.error.TypeName() == c.name
  {
    CheckFields(cs, c.name, c.fields)
  }

  /** Checks the listed classes `ts` against the allowed list `cs`, stopping at the first error. */
  function CheckClasses(cs: seq<ModelClass>, ts: seq<ModelClass>): (r: Outcome<ValidationError>)
    ensures r.Fail? ==> exists i :: 0 <= i < |ts| && r.error.TypeName() == ts[i].name
  {
    if ts == [] then Pass
    else if CheckClass(cs, ts[0]).Fail? then CheckClass(cs, ts[0])
    else
      var rest := CheckClasses(cs, ts[1..]);
      assert rest.Fail? ==> exists i :: 0 <= i < |ts| && rest.error.TypeName() == ts[i].name by {
        if rest.Fail? {
          var i :| 0 <= i < |ts[1..]| && rest.error.TypeName() == ts[1..][i].name;
          assert ts[1..][i] == ts[i + 1];
        }
      }
      rest
  }

  /** `validate_model_classes`: Pass, or the first error in list order. */
  function ValidateModelClasses(cs: seq<ModelClass>): (r: Outcome<ValidationError>)
    ensures r.Fail? ==> exists i :: 0 <= i < |cs| && r.error.TypeName() == cs[i].name
  {
    CheckClasses(cs, cs)
  }

  /** The class has `id: int` and each of its fields has an accepted shape. */
  predicate ValidClass(cs: seq<ModelClass>, c: ModelClass) {
    HasIntId(c) && forall j :: 0 <= j < |c.fields| ==> WellFormedType(cs, c.fields[j].ty)
  }

  /** Every class has `id: int` and every field has an accepted shape. */
  predicate ValidModel(cs: seq<ModelClass>) {
    forall i :: 0 <= i < |cs| ==>
      HasIntId(cs[i]) && forall j :: 0 <= j < |cs[i].fields| ==> WellFormedType(cs, cs[i].fields[j].ty)
  }

  // ---------------------------------------------------------------------
  // Properties

  lemma {:induction false} CheckFieldsPass(cs: seq<ModelClass>, typeName: string, fs: seq<Field>)
    ensures CheckFields(cs, typeName, fs).Pass?
        <==> forall j :: 0 <= j < |fs| ==> WellFormedType(cs, fs[j].ty)
  {
    if fs != [] {
      CheckFieldsPass(cs, typeName, fs[1..]);
      assert forall j :: 1 <= j < |fs| ==> fs[j] == fs[1..][j - 1];
    }
  }

  /** The error reported for a class is that of its first offending field. */
  lemma {:induction false} CheckFieldsFirst(cs: seq<ModelClass>, typeName: string, fs: seq<Field>)
    requires CheckFields(cs, typeName, fs).Fail?
    ensures exists k :: 0 <= k < |fs|
              && (forall j :: 0 <= j < k ==> WellFormedType(cs, fs[j].ty))
              && CheckFields(cs, typeName, fs) == CheckField(cs, typeName, fs[k])
  {
    if CheckField(cs, typeName, fs[0]).Pass? {
      CheckFieldsFirst(cs, typeName, fs[1..]);
      var k :| 0 <= k < |fs[1..]|
              && (forall j :: 0 <= j < k ==> WellFormedType(cs, fs[1..][j].ty))
              && CheckFields(cs, typeName, fs[1..]) == CheckField(cs, typeName, fs[1..][k]);
      CheckFieldsShift(cs, typeName, fs, k);
    } else {
      assert CheckFields(cs, typeName, fs) == CheckField(cs, typeName, fs[0]);
    }
  }

  lemma CheckFieldsShift(cs: seq<ModelClass>, typeName: string, fs: seq<Field>, k: nat)
    requires |fs| > 0 && CheckField(cs, typeName, fs[0]).Pass? && k < |fs| - 1
    requires forall j :: 0 <= j < k ==> WellFormedType(cs, fs[1..][j].ty)
    requires CheckFields(cs, typeName, fs[1..]) == CheckField(cs, typeName, fs[1..][k])
    ensures forall j :: 0 <= j < k + 1 ==> WellFormedType(cs, fs[j].ty)
    ensures CheckFields(cs, typeName, fs) == CheckField(cs, typeName, fs[k + 1])
  {
    forall j | 0 <= j < k + 1 ensures WellFormedType(cs, fs[j].ty) {
      if j > 0 { assert fs[j] == fs[1..][j - 1]; }
    }
    assert fs[1..][k] == fs[k + 1];
  }

  lemma {:induction false} CheckClassesPass(cs: seq<ModelClass>, ts: seq<ModelClass>)
    ensures CheckClasses(cs, ts).Pass? <==>
      forall i :: 0 <= i < |ts| ==>
        HasIntId(ts[i]) && forall j :: 0 <= j < |ts[i].fields| ==> WellFormedType(cs, ts[i].fields[j].ty)
  {
    if ts != [] {
      CheckClassesPass(cs, ts[1..]);
      CheckFieldsPass(cs, ts[0].name, ts[0].fields);
      assert forall i :: 1 <= i < |ts| ==> ts[i] == ts[1..][i - 1];
    }
  }

  /** Validation passes exactly when every class has `id: int` and every field an accepted shape. */
  lemma ValidationPassesIffValid(cs: seq<ModelClass>)
    ensures ValidateModelClasses(cs).Pass? <==> ValidModel(cs)
  {
    CheckClassesPass(cs, cs);
  }

  lemma {:induction false} CheckClassesFirst(cs: seq<ModelClass>, ts: seq<ModelClass>)
    requires CheckClasses(cs, ts).Fail?
    ensures exists k :: 0 <= k < |ts|
              && (forall i :: 0 <= i < k ==> CheckClass(cs, ts[i]).Pass?)
              && CheckClasses(cs, ts) == CheckClass(cs, ts[k])
  {
    if CheckClass(cs, ts[0]).Pass? {
      CheckClassesFirst(cs, ts[1..]);
      var k :| 0 <= k < |ts[1..]|
              && (forall i :: 0 <= i < k ==> CheckClass(cs, ts[1..][i]).Pass?)
              && CheckClasses(cs, ts[1..]) == CheckClass(cs, ts[1..][k]);
      assert forall i :: 0 <= i < k + 1 ==> CheckClass(cs, ts[i]).Pass? by {
        forall i | 0 <= i < k + 1 ensures CheckClass(cs, ts[i]).Pass? {
          if i > 0 { assert ts[i] == ts[1..][i - 1]; }
        }
      }
    } else {
      assert CheckClasses(cs, ts) == CheckClass(cs, ts[0]);
    }
  }

  /**
   * Fail-fast: a rejection is the error of the first offending class in list
   * order; it is `MissingId` when that class lacks `id: int`, and otherwise the
   * error of its first offending field.
   */
  lemma FirstErrorReported(cs: seq<ModelClass>)
    requires ValidateModelClasses(cs).Fail?
    ensures exists k :: 0 <= k < |cs|
              && (forall i :: 0 <= i < k ==> CheckClass(cs, cs[i]).Pass?)
              && ValidateModelClasses(cs) == CheckClass(cs, cs[k])
              && ValidateModelClasses(cs).error.TypeName() == cs[k].name
              && (!HasIntId(cs[k]) ==> ValidateModelClasses(cs) == Fail(MissingId(cs[k].name)))
              && (HasIntId(cs[k]) ==>
                    (exists j :: 0 <= j < |cs[k].fields|
                       && ValidateModelClasses(cs) == CheckField(cs, cs[k].name, cs[k].fields[j])))
  {
    CheckClassesFirst(cs, cs);
    var k :| 0 <= k < |cs|
              && (forall i :: 0 <= i < k ==> CheckClass(cs, cs[i]).Pass?)
              && CheckClasses(cs, cs) == CheckClass(cs, cs[k]);
    if HasIntId(cs[k]) {
      CheckFieldsFirst(cs, cs[k].name, cs[k].fields);
    }
  }

  /**
   * Closed world: after validation passes, every class a field names, bare,
   * under `Optional` or as a list element, is one of the listed classes.
   */
  lemma ValidatedModelIsClosed(cs: seq<ModelClass>, i: nat, j: nat)
    requires ValidateModelClasses(cs).Pass?
    requires i < |cs| && j < |cs[i].fields|
    ensures var t := cs[i].fields[j].ty;
            (t.Model? ==> t.name in Names(cs))
            && (t.Opt? && t.inner.Model? ==> t.inner.name in Names(cs))
            && (t.ListOf? ==> t.elem.Model? && t.elem.name in Names(cs))
  {
    ValidationPassesIffValid(cs);
  }

  // ---------------------------------------------------------------------
  // The cases of tests/test_model_validation.py

  /** The error of field `k` is reported when the fields before it pass. */
  lemma {:induction false} CheckFieldsAt(cs: seq<ModelClass>, typeName: string, fs: seq<Field>, k: nat)
    requires k < |fs| && CheckField(cs, typeName, fs[k]).Fail?
    requires forall j :: 0 <= j < k ==> WellFormedType(cs, fs[j].ty)
    ensures CheckFields(cs, typeName, fs) == CheckField(cs, typeName, fs[k])
  {
    if k > 0 {
      assert CheckField(cs, typeName, fs[0]).Pass?;
      CheckFieldsAt(cs, typeName, fs[1..], k - 1);
    }
  }

  /** The sample model and `[Supplier, SupplierType]` pass. */
  lemma ValidModelsPass()
    ensures ValidateModelClasses([Supplier, SupplierType]).Pass?
    ensures ValidateModelClasses(SampleModel).Pass?
  {
    SupplierPairValid();
    ValidationPassesIffValid([Supplier, SupplierType]);
    SampleModelValid();
    ValidationPassesIffValid(SampleModel);
  }

  lemma SupplierPairValid()
    ensures ValidModel([Supplier, SupplierType])
  {
    var cs := [Supplier, SupplierType];
    assert Names(cs) == ["Supplier", "SupplierType"];
    SampleClassesValid(cs);
  }

  lemma SampleModelValid()
    ensures ValidModel(SampleModel)
  {
    assert Names(SampleModel) == ["Crs", "Datafile", "Dataset", "Supplier", "SupplierType"];
    SampleClassesValid(SampleModel);
  }

  /** Each sample class is valid in any list that holds the classes it names. */
  lemma SampleClassesValid(cs: seq<ModelClass>)
    ensures "SupplierType" in Names(cs) ==> ValidClass(cs, Supplier)
    ensures ValidClass(cs, SupplierType) && ValidClass(cs, Crs)
    ensures "Supplier" in Names(cs) ==> ValidClass(cs, Datafile)
    ensures "Datafile" in Names(cs) && "Crs" in Names(cs) ==> ValidClass(cs, Dataset)
  {
    assert Supplier.fields[0] == IdField;
    assert SupplierType.fields[0] == IdField;
    assert Crs.fields[0] == IdField;
    assert Datafile.fields[0] == IdField;
    assert Dataset.fields[0] == IdField;
  }

  /** A class without `id`, or whose `id` is not an `int`, is reported as missing its id. */
  lemma MissingIdRejected()
    ensures ValidateModelClasses([NoIdDataset]) == Fail(MissingId("NoIdDataset"))
    ensures ValidateModelClasses([NotIntIdDataset]) == Fail(MissingId("NotIntIdDataset"))
  {
  }

  /** A referenced class that is not listed is rejected, with the error of the wrapper it sits in. */
  lemma UnlistedChildRejected()
    ensures ValidateModelClasses([Supplier])
            == Fail(DisallowedType("Supplier", "supplier_type", Model("SupplierType")))
    ensures ValidateModelClasses([SimpleDataset])
            == Fail(DisallowedListElement("SimpleDataset", "datafiles", Model("Datafile")))
    ensures ValidateModelClasses([OptionalDataset])
            == Fail(DisallowedOptional("OptionalDataset", "last_datafile", Model("Datafile")))
  {
    assert Supplier.fields[0] == IdField;
    CheckFieldsAt([Supplier], "Supplier", Supplier.fields, 5);
    assert SimpleDataset.fields[0] == IdField;
    CheckFieldsAt([SimpleDataset], "SimpleDataset", SimpleDataset.fields, 2);
    assert OptionalDataset.fields[0] == IdField;
    CheckFieldsAt([OptionalDataset], "OptionalDataset", OptionalDataset.fields, 2);
  }

  /** `List[Optional[...]]` and `Optional[List[...]]` are rejected as nested wrappers. */
  lemma NestedWrappersRejected()
    ensures ValidateModelClasses([ListOptionalDataset])
            == Fail(NestedWrapper("ListOptionalDataset", "last_datafile", Model("Datafile")))
    ensures ValidateModelClasses([OptionalListDataset])
            == Fail(NestedWrapper("OptionalListDataset", "last_datafile", Model("Datafile")))
  {
    assert ListOptionalDataset.fields[0] == IdField;
    CheckFieldsAt([ListOptionalDataset], "ListOptionalDataset", ListOptionalDataset.fields, 2);
    assert OptionalListDataset.fields[0] == IdField;
    CheckFieldsAt([OptionalListDataset], "OptionalListDataset", OptionalListDataset.fields, 2);
  }

  // ---------------------------------------------------------------------
  // strawberrysqlalchemy/strawchemy/model_validation.py (legacy, dataclasses)

  /** The shapes the legacy validators accept: a list of a listed class, or a mapped scalar or listed class. */
  predicate LegacyWellFormed(cs: seq<ModelClass>, t: Ty) {
    if t.ListOf? then IsListedModel(cs, t.elem) else Allowed(cs, t)
  }

  /** A `List[...]` field needs a listed element class; anything else must be allowed as it stands. */
  function CheckFieldLegacy(cs: seq<ModelClass>, typeName: string, f: Field): (r: Outcome<ValidationError>)
    ensures r.Pass? <==> LegacyWellFormed(cs, f.ty)
    ensures f.ty.Opt? ==> r == Fail(DisallowedType(typeName, f.name, f.ty))
  {
    if f.ty.ListOf? then
      if IsListedModel(cs, f.ty.elem) then Pass
      else Fail(DisallowedListElement(typeName, f.name, f.ty.elem))
    else if Allowed(cs, f.ty) then Pass
    else Fail(DisallowedType(typeName, f.name, f.ty))
  }

  function CheckFieldsLegacy(cs: seq<ModelClass>, typeName: string, fs: seq<Field>): (r: Outcome<ValidationError>)
    ensures r.Fail? ==> r.error.TypeName() == typeName && !r.error.MissingId?
  {
    if fs == [] then Pass
    else if CheckFieldLegacy(cs, typeName, fs[0]).Fail? then CheckFieldLegacy(cs, typeName, fs[0])
    else CheckFieldsLegacy(cs, typeName, fs[1..])
  }

  function CheckClassesLegacy(cs: seq<ModelClass>, ts: seq<ModelClass>): (r: Outcome<ValidationError>)
    ensures r.Fail? ==> exists i :: 0 <= i < |ts| && r.error.TypeName() == ts[i].name
  {
    if ts == [] then Pass
    else if !HasIntId(ts[0]) then Fail(MissingId(ts[0].name))
    else if CheckFieldsLegacy(cs, ts[0].name, ts[0].fields).Fail? then CheckFieldsLegacy(cs, ts[0].name, ts[0].fields)
    else
      var rest := CheckClassesLegacy(cs, ts[1..]);
      assert rest.Fail? ==> exists i :: 0 <= i < |ts| && rest.error.TypeName() == ts[i].name by {
        if rest.Fail? {
          var i :| 0 <= i < |ts[1..]| && rest.error.TypeName() == ts[1..][i].name;
          assert ts[1..][i] == ts[i + 1];
        }
      }
      rest
  }

  /** The legacy `validate_model_classes` (raises `ValueError`). */
  function ValidateModelClassesLegacy(cs: seq<ModelClass>): (r: Outcome<ValidationError>)
    ensures r.Fail? ==> exists i :: 0 <= i < |cs| && r.error.TypeName() == cs[i].name
  {
    CheckClassesLegacy(cs, cs)
  }

  /** Every class has `id: int` and every field a shape the legacy validator accepts. */
  predicate LegacyValidModel(cs: seq<ModelClass>) {
    forall i :: 0 <= i < |cs| ==>
      HasIntId(cs[i]) && forall j :: 0 <= j < |cs[i].fields| ==> LegacyWellFormed(cs, cs[i].fields[j].ty)
  }

  lemma {:induction false} CheckFieldsLegacyPass(cs: seq<ModelClass>, typeName: string, fs: seq<Field>)
    ensures CheckFieldsLegacy(cs, typeName, fs).Pass?
        <==> forall j :: 0 <= j < |fs| ==> LegacyWellFormed(cs, fs[j].ty)
  {
    if fs != [] {
      CheckFieldsLegacyPass(cs, typeName, fs[1..]);
      assert forall j :: 1 <= j < |fs| ==> fs[j] == fs[1..][j - 1];
    }
  }

  lemma {:induction false} CheckClassesLegacyPass(cs: seq<ModelClass>, ts: seq<ModelClass>)
    ensures CheckClassesLegacy(cs, ts).Pass? <==>
      forall i :: 0 <= i < |ts| ==>
        HasIntId(ts[i]) && forall j :: 0 <= j < |ts[i].fields| ==> LegacyWellFormed(cs, ts[i].fields[j].ty)
  {
    if ts != [] {
      CheckClassesLegacyPass(cs, ts[1..]);
      CheckFieldsLegacyPass(cs, ts[0].name, ts[0].fields);
      assert forall i :: 1 <= i < |ts| ==> ts[i] == ts[1..][i - 1];
    }
  }

  /** The legacy validation passes exactly when every class has `id: int` and every field a legacy-accepted shape. */
  lemma LegacyValidationPassesIffValid(cs: seq<ModelClass>)
    ensures ValidateModelClassesLegacy(cs).Pass? <==> LegacyValidModel(cs)
  {
    CheckClassesLegacyPass(cs, cs);
  }

  lemma {:induction false} LegacyFieldsStricter(cs: seq<ModelClass>, typeName: string, fs: seq<Field>)
    requires CheckFieldsLegacy(cs, typeName, fs).Pass?
    ensures CheckFields(cs, typeName, fs).Pass?
    ensures forall j :: 0 <= j < |fs| ==> !fs[j].ty.Opt?
  {
    if fs != [] {
      LegacyFieldsStricter(cs, typeName, fs[1..]);
      assert forall j :: 1 <= j < |fs| ==> fs[j] == fs[1..][j - 1];
    }
  }

  lemma {:induction false} LegacyClassesStricter(cs: seq<ModelClass>, ts: seq<ModelClass>)
    requires CheckClassesLegacy(cs, ts).Pass?
    ensures CheckClasses(cs, ts).Pass?
    ensures forall i, j :: 0 <= i < |ts| && 0 <= j < |ts[i].fields| ==> !ts[i].fields[j].ty.Opt?
  {
    if ts != [] {
      LegacyFieldsStricter(cs, ts[0].name, ts[0].fields);
      LegacyClassesStricter(cs, ts[1..]);
      assert forall i :: 1 <= i < |ts| ==> ts[i] == ts[1..][i - 1];
    }
  }

  /**
   * The legacy validator is the stricter one: whatever it accepts the current
   * one accepts, and it accepts no `Optional` field at all.
   */
  lemma LegacyValidationStricter(cs: seq<ModelClass>)
    requires ValidateModelClassesLegacy(cs).Pass?
    ensures ValidateModelClasses(cs).Pass?
    ensures forall i, j :: 0 <= i < |cs| && 0 <= j < |cs[i].fields| ==> !cs[i].fields[j].ty.Opt?
  {
    LegacyClassesStricter(cs, cs);
  }

  // ---------------------------------------------------------------------
  // ensure_nullable_ids

  predicate HasIdField(c: ModelClass) {
    "id" in FieldNames(c.fields)
  }

  const NullableInt: Ty := Opt(IntType)

  /** The class after its `id` field has been made `Optional[int]` with default None. */
  function NullableId(c: ModelClass): (r: ModelClass)
    requires HasIdField(c)
    ensures r.name == c.name && r.lookup == c.lookup && |r.fields| == |c.fields|
    ensures FieldNames(r.fields) == FieldNames(c.fields)
  {
    var j := FieldIndex(c.fields, "id");
    if c.fields[j].ty != NullableInt
    then c.(fields := c.fields[j := c.fields[j].(ty := NullableInt, defaultNone := true)])
    else c
  }

  /** Making the ids nullable once more changes nothing. */
  lemma NullableIdIdempotent(c: ModelClass)
    requires HasIdField(c)
    ensures HasIdField(NullableId(c)) && NullableId(NullableId(c)) == NullableId(c)
  {
  }

  /** Only the `id` field is touched, and it becomes `Optional[int]`; a changed one gets default None. */
  lemma NullableIdTouchesOnlyId(c: ModelClass)
    requires HasIdField(c)
    ensures var r := NullableId(c); var j := FieldIndex(c.fields, "id");
            r.fields[j].ty == NullableInt
            && (c.fields[j].ty != NullableInt ==> r.fields[j].defaultNone)
            && forall k :: 0 <= k < |c.fields| && k != j ==> r.fields[k] == c.fields[k]
  {
  }

  function NullableIds(cs: seq<ModelClass>): (r: seq<ModelClass>)
    requires forall i :: 0 <= i < |cs| ==> HasIdField(cs[i])
    ensures |r| == |cs| && forall i :: 0 <= i < |cs| ==> r[i] == NullableId(cs[i])
  {
    seq(|cs|, i requires 0 <= i < |cs| && HasIdField(cs[i]) => NullableId(cs[i]))
  }

  /** One more type rewritten: the loop step of `EnsureNullableIds`. */
  lemma NullableIdsStep(cs: seq<ModelClass>, i: nat)
    requires i < |cs| && forall k :: 0 <= k <= i ==> HasIdField(cs[k])
    ensures (NullableIds(cs[..i]) + cs[i..])[i := NullableId(cs[i])]
            == NullableIds(cs[..i + 1]) + cs[i + 1..]
  {
    var a := (NullableIds(cs[..i]) + cs[i..])[i := NullableId(cs[i])];
    var b := NullableIds(cs[..i + 1]) + cs[i + 1..];
    assert |a| == |b|;
    forall k | 0 <= k < |a| ensures a[k] == b[k] {
      if k < i {
        assert a[k] == NullableIds(cs[..i])[k] == NullableId(cs[k]);
      } else if k > i {
        assert a[k] == cs[k];
      }
    }
  }

  /**
   * The dataclasses whose field metadata `ensure_nullable_ids` rewrites in
   * place.
   */
  class Dataclasses {
    var types: seq<ModelClass>

    constructor (types: seq<ModelClass>)
      ensures this.types == types
    {
      this.types := types;
    }

    /**
     * `ensure_nullable_ids`: for each type in turn, finds its `id` field
     * (`next()` raises StopIteration, naming the type here, when there is none)
     * and makes it `Optional[int]` with default None.  Types before a failing
     * one have already been rewritten.
     */
    method EnsureNullableIds() returns (r: Outcome<string>)
      modifies this
      ensures r.Pass? <==> forall i :: 0 <= i < |old(types)| ==> HasIdField(old(types)[i])
      ensures r.Pass? ==> types == NullableIds(old(types))
      ensures r.Fail? ==>
        exists k :: 0 <= k < |old(types)|
          && (forall i :: 0 <= i < k ==> HasIdField(old(types)[i]))
          && !HasIdField(old(types)[k]) && r.error == old(types)[k].name
          && types == NullableIds(old(types)[..k]) + old(types)[k..]
    {
      var i := 0;
      while i < |types|
        invariant 0 <= i <= |types| == |old(types)|
        invariant forall k :: 0 <= k < i ==> HasIdField(old(types)[k])
        invariant types == NullableIds(old(types)[..i]) + old(types)[i..]
      {
        var c := types[i];
        assert c == old(types)[i];
        var j := 0;
        while j < |c.fields| && c.fields[j].name != "id"
          invariant 0 <= j <= |c.fields|
          invariant forall k :: 0 <= k < j ==> c.fields[k].name != "id"
        {
          j := j + 1;
        }
        if j == |c.fields| {
          return Fail(c.name);
        }
        assert j == FieldIndex(c.fields, "id");
        if c.fields[j].ty != NullableInt {
          c := c.(fields := c.fields[j := c.fields[j].(ty := NullableInt, defaultNone := true)]);
        }
        assert c == NullableId(old(types)[i]);
        NullableIdsStep(old(types), i);
        types := types[i := c];
        i := i + 1;
      }
      assert old(types)[..i] == old(types);
      return Pass;
    }
  }
}
