/**
 * The Create and Update input types derived from the model types
 * (`recursively_create_strawberry_create_types` and
 * `recursively_create_strawberry_update_types`).  Each derivation is
 * memoised on the model type: the derived type is recorded before the
 * fields that refer to other model types are rewritten, so a cyclic type
 * graph is walked once per type.
 */
module InputTypes {
  import opened Wrappers
  import opened ModelTypes
  import opened Fixtures

  datatype InputKind = Create | Update

  /** The name given to a derived class: `<Name>Create` or `<Name>Update`. */
  function DerivedName(kind: InputKind, n: string): (r: string)
    ensures |r| == |n| + 6 && r[..|n|] == n
  {
    n + (if kind == Create then "Create" else "Update")
  }

  /** `get_object_definition(t)` is set: `t` is one of the strawberry model types. */
  predicate IsObjectType(world: seq<ModelClass>, t: Ty) {
    t.Model? && t.name in Names(world)
  }

  /** A list field can be rewritten only when its element is a model type. */
  predicate Derivable(world: seq<ModelClass>, f: Field) {
    f.ty.ListOf? ==> IsObjectType(world, f.ty.elem)
  }

  /** The model type whose derived type a field recurses into, if any. */
  function Referenced(world: seq<ModelClass>, f: Field): (r: Option<string>)
    ensures r.Some? ==> r.value in Names(world)
  {
    if f.ty.ListOf? && IsObjectType(world, f.ty.elem) then Some(f.ty.elem.name)
    else if IsObjectType(world, f.ty) then Some(f.ty.name)
    else None
  }

  /** The type under all `Optional` and `List` wrappers. */
  function Innermost(t: Ty): Ty {
    match t
    case ListOf(e) => Innermost(e)
    case Opt(i) => Innermost(i)
    case _ => t
  }

  /**
   * One field of the derived type, once the type it refers to has been
   * derived.  Create: a list of a model becomes a list of the model's Create
   * type, a model reference the model's Create type, `id` Optional with
   * default None, and every other field is kept.  Update: a list of a model
   * becomes `Optional[List[Optional[<child>Update]]]`, a model reference
   * `Optional[<child>Update]`, every other field not yet Optional becomes
   * Optional, and each of these defaults to None.  An Optional reference to a
   * model is neither a list nor a model type, so it is kept in both.
   */
  function DerivedField(kind: InputKind, world: seq<ModelClass>, f: Field): (r: Field)
    requires Derivable(world, f)
    ensures r.name == f.name
    ensures Referenced(world, f).Some? ==>
              Innermost(r.ty) == Generated(DerivedName(kind, Referenced(world, f).value))
    ensures Referenced(world, f).None? ==> Innermost(r.ty) == Innermost(f.ty)
    ensures f.ty.ListOf? ==>
              (if kind == Create then r.ty.ListOf? else r.ty.Opt? && r.ty.inner.ListOf? && r.ty.inner.elem.Opt?)
    ensures kind == Update ==> r.ty.Opt? && (f.ty.Opt? ==> r == f) && (!f.ty.Opt? ==> r.defaultNone)
    ensures kind == Create && Referenced(world, f).None? ==>
              r == if f.name == "id" then Field(f.name, Opt(f.ty), true) else f
  {
    match kind
    case Create =>
      if f.ty.ListOf? then Field(f.name, ListOf(Generated(DerivedName(kind, f.ty.elem.name))), f.defaultNone)
      else if IsObjectType(world, f.ty) then Field(f.name, Generated(DerivedName(kind, f.ty.name)), f.defaultNone)
      else if f.name == "id" then Field(f.name, Opt(f.ty), true)
      else f
    case Update =>
      if f.ty.ListOf? then
        var g := Generated(DerivedName(kind, f.ty.elem.name));
        assert Innermost(Opt(ListOf(Opt(g)))) == Innermost(ListOf(Opt(g))) == Innermost(Opt(g)) == g;
        Field(f.name, Opt(ListOf(Opt(g))), true)
      else if IsObjectType(world, f.ty) then Field(f.name, Opt(Generated(DerivedName(kind, f.ty.name))), true)
      else if !f.ty.Opt? then Field(f.name, Opt(f.ty), true)
      else f
  }

  predicate AllDerivable(world: seq<ModelClass>, fs: seq<Field>) {
    forall i :: 0 <= i < |fs| ==> Derivable(world, fs[i])
  }

  /** The fields of a derived type: the model type's fields, each rewritten, in order. */
  function DerivedFields(kind: InputKind, world: seq<ModelClass>, fs: seq<Field>): (r: seq<Field>)
    requires AllDerivable(world, fs)
    ensures |r| == |fs| && forall i :: 0 <= i < |fs| ==> r[i] == DerivedField(kind, world, fs[i])
  {
    seq(|fs|, i requires 0 <= i < |fs| && Derivable(world, fs[i]) => DerivedField(kind, world, fs[i]))
  }

  function FieldsOf(world: seq<ModelClass>, n: string): seq<Field>
    requires n in Names(world)
  {
    ClassNamed(world, n).fields
  }

  /** The model type names; the derived types are recorded against these. */
  function Universe(world: seq<ModelClass>): set<string> {
    set i | 0 <= i < |world| :: world[i].name
  }

  /** A field whose rewrite is done: it is derivable and the type it refers to has a derived type. */
  predicate Resolved(world: seq<ModelClass>, keys: set<string>, f: Field) {
    Derivable(world, f) && (Referenced(world, f).Some? ==> Referenced(world, f).value in keys)
  }

  /**
   * The derived type recorded for `n` is complete: every field has been
   * rewritten and every type it refers to has a derived type of its own.
   */
  predicate Complete(kind: InputKind, world: seq<ModelClass>, d: map<string, seq<Field>>, n: string)
    requires n in d && n in Names(world)
  {
    var fs := FieldsOf(world, n);
    (forall i :: 0 <= i < |fs| ==> Resolved(world, d.Keys, fs[i]))
    && d[n] == DerivedFields(kind, world, fs)
  }

  /** No recorded derived type is ever replaced. */
  predicate Extends(d0: map<string, seq<Field>>, d: map<string, seq<Field>>) {
    forall k :: k in d0 ==> k in d && d[k] == d0[k]
  }

  /** Every derived type recorded since `d0` is complete. */
  predicate CompletesNew(kind: InputKind, world: seq<ModelClass>, d0: map<string, seq<Field>>, d: map<string, seq<Field>>)
  {
    forall k :: k in d && k !in d0 ==> k in Names(world) && Complete(kind, world, d, k)
  }

  /** Every recorded derived type is complete: the derived types refer only to one another. */
  predicate Closed(kind: InputKind, world: seq<ModelClass>, d: map<string, seq<Field>>) {
    forall k :: k in d ==> k in Names(world) && Complete(kind, world, d, k)
  }

  lemma NamesInUniverse(world: seq<ModelClass>, n: string)
    requires n in Names(world)
    ensures n in Universe(world)
  {
    var i :| 0 <= i < |world| && Names(world)[i] == n;
    assert world[i].name == n;
  }

  lemma UniverseInNames(world: seq<ModelClass>)
    ensures forall n :: n in Universe(world) ==> n in Names(world)
  {
    forall n | n in Universe(world) ensures n in Names(world) {
      var i :| 0 <= i < |world| && world[i].name == n;
      assert Names(world)[i] == n;
    }
  }

  // ---------------------------------------------------------------------
  // The types a derivation reaches

  /**
   * The type the field loop recurses into for one field: the element of a
   * list (whatever it is), or a referenced model type.
   */
  function Child(world: seq<ModelClass>, f: Field): Option<Ty> {
    if f.ty.ListOf? then Some(f.ty.elem)
    else if IsObjectType(world, f.ty) then Some(f.ty)
    else None
  }

  /** The derivation of the model type `a` recurses into `b` for one of `a`'s fields. */
  predicate Step(world: seq<ModelClass>, a: Ty, b: Ty) {
    IsObjectType(world, a)
    && exists j :: 0 <= j < |FieldsOf(world, a.name)| && Child(world, FieldsOf(world, a.name)[j]) == Some(b)
  }

  /** A chain of recursive calls, each on a type the previous one recurses into. */
  predicate IsChain(world: seq<ModelClass>, p: seq<Ty>) {
    |p| >= 1 && forall i :: 0 <= i < |p| - 1 ==> Step(world, p[i], p[i + 1])
  }

  /** The derivation of `t` reaches `u`: some chain of recursive calls leads from `t` to `u`. */
  ghost predicate Reaches(world: seq<ModelClass>, t: Ty, u: Ty) {
    exists p :: IsChain(world, p) && p[0] == t && p[|p| - 1] == u
  }

  /** Every type the derivation of `t` reaches, `t` included, is a model type. */
  ghost predicate FullyDerivable(world: seq<ModelClass>, t: Ty) {
    forall u :: Reaches(world, t, u) ==> IsObjectType(world, u)
  }

  lemma ReachesSelf(world: seq<ModelClass>, t: Ty)
    ensures Reaches(world, t, t)
  {
    assert IsChain(world, [t]);
  }

  /** One recursive call followed by a chain is a chain. */
  lemma ReachesStep(world: seq<ModelClass>, a: Ty, b: Ty, c: Ty)
    requires Step(world, a, b) && Reaches(world, b, c)
    ensures Reaches(world, a, c)
  {
    var p :| IsChain(world, p) && p[0] == b && p[|p| - 1] == c;
    var q := [a] + p;
    forall i | 0 <= i < |q| - 1 ensures Step(world, q[i], q[i + 1]) {
      if i > 0 {
        assert q[i] == p[i - 1] && q[i + 1] == p[i];
      }
    }
    assert IsChain(world, q) && q[0] == a && q[|q| - 1] == c;
  }

  /**
   * From a type recorded in a closed memo, every chain stays among model
   * types that are recorded: their fields are resolved, so each list
   * element or reference is a model type with a recorded derived type.
   */
  lemma {:induction false} ClosedChainRecorded(kind: InputKind, world: seq<ModelClass>, d: map<string, seq<Field>>, p: seq<Ty>)
    requires Closed(kind, world, d) && IsChain(world, p) && p[0].Model? && p[0].name in d
    ensures IsObjectType(world, p[|p| - 1]) && p[|p| - 1].name in d
    decreases |p|
  {
    if |p| > 1 {
      var q := p[..|p| - 1];
      assert forall i :: 0 <= i < |q| ==> q[i] == p[i];
      assert IsChain(world, q);
      ClosedChainRecorded(kind, world, d, q);
      var a, b := p[|p| - 2], p[|p| - 1];
      assert a == q[|q| - 1] && Step(world, a, b);
      var fs := FieldsOf(world, a.name);
      var j :| 0 <= j < |fs| && Child(world, fs[j]) == Some(b);
      assert Complete(kind, world, d, a.name);
      assert Resolved(world, d.Keys, fs[j]);
    }
  }

  /** A type recorded in a closed memo only reaches model types. */
  lemma ClosedFullyDerivable(kind: InputKind, world: seq<ModelClass>, d: map<string, seq<Field>>, t: Ty)
    requires Closed(kind, world, d) && t.Model? && t.name in d
    ensures FullyDerivable(world, t)
  {
    forall u | Reaches(world, t, u) ensures IsObjectType(world, u) {
      var p :| IsChain(world, p) && p[0] == t && p[|p| - 1] == u;
      ClosedChainRecorded(kind, world, d, p);
    }
  }

  /** Recording one more derived type shrinks the set of types still to derive. */
  lemma RemainderShrinks(u: set<string>, a: set<string>, b: set<string>, x: string)
    requires a <= b && x in b && x !in a && x in u
    ensures |u - b| < |u - a|
  {
    assert u - b <= (u - a) - {x};
    assert |(u - a) - {x}| == |u - a| - 1;
    SubsetCard(u - b, (u - a) - {x});
  }

  lemma {:induction false} SubsetCard(a: set<string>, b: set<string>)
    requires a <= b
    ensures |a| <= |b|
    decreases |b|
  {
    if a != {} {
      var x :| x in a;
      SubsetCard(a - {x}, b - {x});
    }
  }

  /** A complete derived type stays complete when more types are derived. */
  lemma CompleteGrows(kind: InputKind, world: seq<ModelClass>, d0: map<string, seq<Field>>, d: map<string, seq<Field>>, n: string)
    requires Extends(d0, d) && n in d0 && n in Names(world) && Complete(kind, world, d0, n)
    ensures Complete(kind, world, d, n)
  {
    var fs := FieldsOf(world, n);
    forall i | 0 <= i < |fs| ensures Resolved(world, d.Keys, fs[i]) {
      assert Resolved(world, d0.Keys, fs[i]);
    }
  }

  /**
   * A derivation that succeeds leaves a closed memo closed: started from
   * types whose derived types refer only to derived types, it ends with the
   * same property.
   */
  lemma ClosedPreserved(kind: InputKind, world: seq<ModelClass>, d0: map<string, seq<Field>>, d: map<string, seq<Field>>)
    requires Extends(d0, d) && CompletesNew(kind, world, d0, d) && Closed(kind, world, d0)
    ensures Closed(kind, world, d)
  {
    forall k | k in d ensures k in Names(world) && Complete(kind, world, d, k) {
      if k in d0 {
        CompleteGrows(kind, world, d0, d, k);
      }
    }
  }

  /** Every field of an Update type is Optional; one not declared Optional defaults to None. */
  lemma UpdateTypeAllOptional(world: seq<ModelClass>, fs: seq<Field>)
    requires AllDerivable(world, fs)
    ensures var r := DerivedFields(Update, world, fs);
            forall i :: 0 <= i < |r| ==> r[i].ty.Opt? && (!fs[i].ty.Opt? ==> r[i].defaultNone)
  {
  }

  /** A derived type has the model type's field names, in the same order. */
  lemma DerivedKeepsFieldNames(kind: InputKind, world: seq<ModelClass>, fs: seq<Field>)
    requires AllDerivable(world, fs)
    ensures FieldNames(DerivedFields(kind, world, fs)) == FieldNames(fs)
  {
    var r := DerivedFields(kind, world, fs);
    assert |FieldNames(r)| == |FieldNames(fs)|;
    forall i | 0 <= i < |fs| ensures FieldNames(r)[i] == FieldNames(fs)[i] {
      assert r[i].name == fs[i].name;
    }
  }

  /** The names of the sample's derived classes. */
  lemma SampleDerivedNames()
    ensures DerivedName(Create, "Datafile") == "DatafileCreate" && DerivedName(Create, "Crs") == "CrsCreate"
    ensures DerivedName(Update, "Datafile") == "DatafileUpdate" && DerivedName(Update, "Crs") == "CrsUpdate"
  {
  }

  /** A list of a model type becomes a list of its derived type, Optional throughout for Update. */
  lemma DerivedListOfModel(kind: InputKind, world: seq<ModelClass>, n: string, m: string)
    requires m in Names(world)
    ensures Derivable(world, F(n, ListOf(Model(m))))
    ensures DerivedField(kind, world, F(n, ListOf(Model(m)))) ==
              if kind == Create then F(n, ListOf(Generated(DerivedName(kind, m))))
              else Field(n, Opt(ListOf(Opt(Generated(DerivedName(kind, m))))), true)
  {
  }

  /** A reference to a model type becomes its derived type, Optional with default None for Update. */
  lemma DerivedModelReference(kind: InputKind, world: seq<ModelClass>, n: string, m: string)
    requires m in Names(world)
    ensures Derivable(world, F(n, Model(m)))
    ensures DerivedField(kind, world, F(n, Model(m))) ==
              if kind == Create then F(n, Generated(DerivedName(kind, m)))
              else Field(n, Opt(Generated(DerivedName(kind, m))), true)
  {
  }

  /** A scalar field: Create makes only `id` Optional with default None; Update makes every one so. */
  lemma DerivedScalarField(kind: InputKind, world: seq<ModelClass>, n: string, t: Ty)
    requires t.Scalar?
    ensures Derivable(world, F(n, t))
    ensures DerivedField(kind, world, F(n, t)) ==
              if kind == Create && n != "id" then F(n, t) else Field(n, Opt(t), true)
  {
  }

  /** An Optional reference to a model type, other than `id`, is kept as it is by both derivations. */
  lemma DerivedOptionalModel(kind: InputKind, world: seq<ModelClass>, n: string, m: string)
    requires n != "id"
    ensures Derivable(world, F(n, Opt(Model(m))))
    ensures DerivedField(kind, world, F(n, Opt(Model(m)))) == F(n, Opt(Model(m)))
  {
  }

  /**
   * `Dataset`'s Create type in any world that defines `Datafile` and `Crs`:
   * the list of data files becomes a list of `DatafileCreate`, the
   * coordinate system a `CrsCreate`, `id` becomes Optional with default
   * None, and the Optional last data file is kept as a reference to the
   * model type itself.
   */
  lemma DatasetCreateFields(world: seq<ModelClass>)
    requires "Datafile" in Names(world) && "Crs" in Names(world)
    ensures AllDerivable(world, Dataset.fields)
    ensures var r := DerivedFields(Create, world, Dataset.fields);
            |r| == 5 && r[0] == Field("id", Opt(IntType), true) && r[1] == NameField
            && r[2] == F("datafiles", ListOf(Generated("DatafileCreate")))
            && r[3] == F("last_datafile", Opt(Model("Datafile")))
            && r[4] == F("crs", Generated("CrsCreate"))
  {
    SampleDerivedNames();
    DerivedScalarField(Create, world, "id", IntType);
    DerivedScalarField(Create, world, "name", Scalar(Str));
    DerivedListOfModel(Create, world, "datafiles", "Datafile");
    DerivedOptionalModel(Create, world, "last_datafile", "Datafile");
    DerivedModelReference(Create, world, "crs", "Crs");
  }

  /** `Dataset`'s Update type in any world that defines `Datafile` and `Crs`: every field Optional, defaulting to None unless declared Optional. */
  lemma DatasetUpdateFields(world: seq<ModelClass>)
    requires "Datafile" in Names(world) && "Crs" in Names(world)
    ensures AllDerivable(world, Dataset.fields)
    ensures var r := DerivedFields(Update, world, Dataset.fields);
            |r| == 5 && r[0] == Field("id", Opt(IntType), true) && r[1] == Field("name", Opt(Scalar(Str)), true)
            && r[2] == Field("datafiles", Opt(ListOf(Opt(Generated("DatafileUpdate")))), true)
            && r[3] == F("last_datafile", Opt(Model("Datafile")))
            && r[4] == Field("crs", Opt(Generated("CrsUpdate")), true)
  {
    SampleDerivedNames();
    DerivedScalarField(Update, world, "id", IntType);
    DerivedScalarField(Update, world, "name", Scalar(Str));
    DerivedListOfModel(Update, world, "datafiles", "Datafile");
    DerivedOptionalModel(Update, world, "last_datafile", "Datafile");
    DerivedModelReference(Update, world, "crs", "Crs");
  }

  /** The sample defines both classes `Dataset` refers to, so the two lemmas above apply to it. */
  lemma SampleDefinesReferencedTypes()
    ensures "Datafile" in Names(SampleModel) && "Crs" in Names(SampleModel)
  {
    assert Names(SampleModel) == ["Crs", "Datafile", "Dataset", "Supplier", "SupplierType"];
  }

  /**
   * The state of the derivation of `n` after its first `j` fields: those are
   * rewritten and resolved, the rest still as declared.
   */
  predicate Partial(kind: InputKind, world: seq<ModelClass>, d: map<string, seq<Field>>, n: string, fs: seq<Field>, j: nat)
  {
    j <= |fs| && n in d && |d[n]| == |fs|
    && (forall i :: 0 <= i < j ==> Resolved(world, d.Keys, fs[i]) && d[n][i] == DerivedField(kind, world, fs[i]))
    && (forall i :: j <= i < |fs| ==> d[n][i] == fs[i])
  }

  /** Every derived type recorded since `d0`, other than the one in progress, is complete. */
  predicate OthersComplete(kind: InputKind, world: seq<ModelClass>, d0: map<string, seq<Field>>, d: map<string, seq<Field>>, n: string)
  {
    forall k :: k in d && k !in d0 && k != n ==> k in Names(world) && Complete(kind, world, d, k)
  }

  /** A nested derivation that succeeded leaves the one in progress where it was. */
  lemma AfterNested(kind: InputKind, world: seq<ModelClass>, d0: map<string, seq<Field>>,
                    before: map<string, seq<Field>>, after: map<string, seq<Field>>, n: string, fs: seq<Field>, j: nat)
    requires Extends(before, after) && CompletesNew(kind, world, before, after)
    requires Partial(kind, world, before, n, fs, j) && OthersComplete(kind, world, d0, before, n)
    ensures Partial(kind, world, after, n, fs, j) && OthersComplete(kind, world, d0, after, n)
  {
    forall i | 0 <= i < j ensures Resolved(world, after.Keys, fs[i]) {
      assert Resolved(world, before.Keys, fs[i]);
    }
    forall k | k in after && k !in d0 && k != n ensures k in Names(world) && Complete(kind, world, after, k) {
      if k in before {
        CompleteGrows(kind, world, before, after, k);
      }
    }
  }

  /** Rewriting field `j` of the type in progress, once the type it refers to is derived. */
  lemma AfterRewrite(kind: InputKind, world: seq<ModelClass>, d0: map<string, seq<Field>>,
                     d: map<string, seq<Field>>, n: string, fs: seq<Field>, j: nat)
    requires Partial(kind, world, d, n, fs, j) && j < |fs| && Resolved(world, d.Keys, fs[j])
    requires OthersComplete(kind, world, d0, d, n) && Extends(d0, d) && n !in d0
    ensures var d' := d[n := d[n][j := DerivedField(kind, world, fs[j])]];
            Partial(kind, world, d', n, fs, j + 1) && OthersComplete(kind, world, d0, d', n)
            && Extends(d0, d') && d'.Keys == d.Keys
  {
    var d' := d[n := d[n][j := DerivedField(kind, world, fs[j])]];
    assert d'.Keys == d.Keys;
    forall k | k in d' && k !in d0 && k != n ensures k in Names(world) && Complete(kind, world, d', k) {
      assert Complete(kind, world, d, k);
    }
  }

  /** All fields rewritten: the type in progress is complete, and so is every type recorded with it. */
  lemma Finished(kind: InputKind, world: seq<ModelClass>, d0: map<string, seq<Field>>,
                 d: map<string, seq<Field>>, n: string)
    requires n in Names(world) && Partial(kind, world, d, n, FieldsOf(world, n), |FieldsOf(world, n)|)
    requires OthersComplete(kind, world, d0, d, n)
    ensures CompletesNew(kind, world, d0, d)
  {
    var fs := FieldsOf(world, n);
    assert d[n] == DerivedFields(kind, world, fs);
    assert Complete(kind, world, d, n);
  }

  /**
   * The memo of one derivation: the Create (or Update) type recorded on each
   * model type, standing for the `__strawchemy_create_type__` (or
   * `__strawchemy_update_type__`) attribute, keyed by model type name.
   */
  class Deriver {
    const kind: InputKind
    const world: seq<ModelClass>
    var derived: map<string, seq<Field>>

    ghost predicate Valid()
      reads this
    {
      derived.Keys <= Universe(world)
    }

    constructor (kind: InputKind, world: seq<ModelClass>)
      ensures this.kind == kind && this.world == world && derived == map[]
      ensures Valid()
    {
      this.kind := kind;
      this.world := world;
      derived := map[];
    }

    /**
     * Derives the input type of `t` and, first, of every type it refers to.
     * A type already derived returns at once.  A type that is not a model
     * type cannot be derived (the source fails setting the memo attribute on
     * it, or on the element of a list of scalars); the failure names it.
     * So a failure names a type the derivation reaches that is not a model
     * type, and a derivation that reaches only model types passes; from a
     * closed memo (a fresh one, or one left by derivations that passed) it
     * passes exactly then, and leaves the memo closed.
     */
    method Derive(t: Ty) returns (r: Outcome<Ty>)
      requires Valid()
      modifies this
      decreases 2 * |Universe(world) - derived.Keys|
      ensures Valid()
      ensures Extends(old(derived), derived)
      ensures t.Model? && t.name in old(derived) ==> r == Pass && derived == old(derived)
      ensures !IsObjectType(world, t) ==> r == Fail(t) && derived == old(derived)
      ensures r.Fail? ==> !IsObjectType(world, r.error) && Reaches(world, t, r.error)
      ensures FullyDerivable(world, t) ==> r.Pass?
      ensures Closed(kind, world, old(derived)) ==> (r.Pass? <==> FullyDerivable(world, t))
      ensures Closed(kind, world, old(derived)) && r.Pass? ==> Closed(kind, world, derived)
      ensures r.Pass? ==> t.Model? && t.name in derived
      ensures r.Pass? ==> CompletesNew(kind, world, old(derived), derived)
    {
      if t.Model? && t.name in derived {
        if Closed(kind, world, derived) {
          ClosedFullyDerivable(kind, world, derived, t);
        }
        return Pass;
      }
      if !IsObjectType(world, t) {
        ReachesSelf(world, t);
        return Fail(t);
      }
      var n := t.name;
      var fs := FieldsOf(world, n);
      NamesInUniverse(world, n);
      derived := derived[n := fs];
      RemainderShrinks(Universe(world), old(derived).Keys, derived.Keys, n);
      var j := 0;
      while j < |fs|
        invariant Valid() && Extends(old(derived), derived)
        invariant Partial(kind, world, derived, n, fs, j)
        invariant OthersComplete(kind, world, old(derived), derived, n)
        invariant |Universe(world) - derived.Keys| < |Universe(world) - old(derived).Keys|
      {
        r := RewriteField(n, fs, j, old(derived));
        if r.Fail? {
          assert t == Model(n);
          return;
        }
        RemainderShrinks(Universe(world), old(derived).Keys, derived.Keys, n);
        j := j + 1;
      }
      Finished(kind, world, old(derived), derived, n);
      if Closed(kind, world, old(derived)) {
        ClosedPreserved(kind, world, old(derived), derived);
        ClosedFullyDerivable(kind, world, derived, t);
      }
      return Pass;
    }

    /**
     * One iteration of the field loop of the derivation of `n`: a list field
     * first derives its element type, a model reference its model type, and
     * the field is then rewritten.
     */
    method RewriteField(n: string, fs: seq<Field>, j: nat, ghost d0: map<string, seq<Field>>) returns (r: Outcome<Ty>)
      requires Valid() && Extends(d0, derived) && n !in d0
      requires n in Names(world) && fs == FieldsOf(world, n)
      requires Partial(kind, world, derived, n, fs, j) && j < |fs|
      requires OthersComplete(kind, world, d0, derived, n)
      modifies this
      decreases 2 * |Universe(world) - derived.Keys| + 1
      ensures Valid() && Extends(d0, derived) && old(derived).Keys <= derived.Keys
      ensures r.Fail? ==> !IsObjectType(world, r.error) && Reaches(world, Model(n), r.error)
      ensures Child(world, fs[j]).Some? && FullyDerivable(world, Child(world, fs[j]).value) ==> r.Pass?
      ensures r.Pass? ==> Partial(kind, world, derived, n, fs, j + 1) && OthersComplete(kind, world, d0, derived, n)
    {
      var f := fs[j];
      var child: Option<Ty> := None;
      if f.ty.ListOf? {
        child := Some(f.ty.elem);
      } else if IsObjectType(world, f.ty) {
        child := Some(f.ty);
      }
      r := Pass;
      if child.Some? {
        ghost var before := derived;
        r := Derive(child.value);
        if r.Fail? {
          assert Child(world, fs[j]) == child;
          assert Step(world, Model(n), child.value);
          ReachesStep(world, Model(n), child.value, r.error);
          return;
        }
        AfterNested(kind, world, d0, before, derived, n, fs, j);
      }
      AfterRewrite(kind, world, d0, derived, n, fs, j);
      derived := derived[n := derived[n][j := DerivedField(kind, world, f)]];
    }
  }
}
