/**
 * The manager's `schema` property: binding resolvers to the query and
 * mutation fields by their names, deriving the input types of every mutation
 * type, and validating then mapping the model types the schema collects; and
 * the create, update and delete resolvers over the database session.
 */
module Manager {
  import opened Wrappers
  import opened ModelTypes
  import opened ModelValidation
  import opened RelationalMapping
  import opened InputTypes
  import opened Materializer

  /** A field of the Query or Mutation class: its Python name and its type. */
  datatype SchemaField = SchemaField(name: string, ty: Ty)

  datatype QueryBinding = FetchAll | FetchById

  datatype MutationKind = CreateMutation | UpdateMutation | DeleteMutation

  datatype SchemaError =
    | ListById(field: string)      // "Fetch..ById Query members cannot be lists"
    | UnknownQuery(field: string)  // "Query members must have FetchAll or FetchById in their names"
    | NotDerivable(t: Ty)          // a mutation type, or a type it reaches, that is not a model class
    | Invalid(e: ValidationError)  // what `validate_model_classes` raises

  /** Python's `sub in s` on strings. */
  predicate Contains(s: string, sub: string)
    decreases |s|
  {
    sub <= s || (s != [] && Contains(s[1..], sub))
  }

  /**
   * The binding of one Query field: "fetchall" anywhere in the lower-cased
   * name binds fetch-all; otherwise "fetch" and "byid" together bind
   * fetch-by-id, which a list-typed field may not use; any other name is an
   * error.
   */
  function ClassifyQuery(f: SchemaField): (r: Result<QueryBinding, SchemaError>)
    ensures r == Ok(FetchAll) <==> Contains(Lower(f.name), "fetchall")
    ensures r == Ok(FetchById) <==>
              !Contains(Lower(f.name), "fetchall") && Contains(Lower(f.name), "fetch")
              && Contains(Lower(f.name), "byid") && !f.ty.ListOf?
    ensures r.Err? ==> r.error == ListById(f.name) || r.error == UnknownQuery(f.name)
  {
    var n := Lower(f.name);
    if Contains(n, "fetchall") then Ok(FetchAll)
    else if Contains(n, "fetch") && Contains(n, "byid") then
      if f.ty.ListOf? then Err(ListById(f.name)) else Ok(FetchById)
    else Err(UnknownQuery(f.name))
  }

  /**
   * The binding as written: the list check asks for the `typing` origin of
   * the strawberry field's type, which is already resolved (a `List[X]`
   * annotation is a `StrawberryList`, not a `typing` alias) and has no
   * origin, so a list-typed by-id field is bound like any other.
   */
  function ClassifyQueryAsWritten(f: SchemaField): (r: Result<QueryBinding, SchemaError>)
    ensures r == Ok(FetchAll) <==> Contains(Lower(f.name), "fetchall")
    ensures r == Ok(FetchById) <==>
              !Contains(Lower(f.name), "fetchall") && Contains(Lower(f.name), "fetch") && Contains(Lower(f.name), "byid")
    ensures r.Err? ==> r.error == UnknownQuery(f.name)
  {
    var n := Lower(f.name);
    if Contains(n, "fetchall") then Ok(FetchAll)
    else if Contains(n, "fetch") && Contains(n, "byid") then Ok(FetchById)
    else Err(UnknownQuery(f.name))
  }

  /** A prefix found at the start of `s` is found in `s`. */
  lemma {:induction false} ContainsPrefix(s: string, a: string, b: string)
    requires a <= b && Contains(s, b)
    ensures Contains(s, a)
    decreases |s|
  {
    if !(b <= s) {
      ContainsPrefix(s[1..], a, b);
    }
  }

  /**
   * Every name that contains "fetchall" also contains "fetch", so the
   * fetch-all test must come first: `fetchAllById` binds fetch-all.
   */
  lemma FetchAllNamesContainFetch(name: string)
    requires Contains(Lower(name), "fetchall")
    ensures Contains(Lower(name), "fetch")
  {
    ContainsPrefix(Lower(name), "fetch", "fetchall");
  }

  /** The two versions of the binding differ exactly on list-typed by-id fields. */
  lemma ListByIdAcceptedAsWritten(f: SchemaField)
    ensures ClassifyQueryAsWritten(f) != ClassifyQuery(f) <==>
              ClassifyQuery(f) == Err(ListById(f.name))
    ensures ClassifyQuery(f) == Err(ListById(f.name)) ==> ClassifyQueryAsWritten(f) == Ok(FetchById)
  {
  }

  /** Text shorter than `sub` does not contain it. */
  lemma {:induction false} ShorterLacks(s: string, sub: string)
    requires |s| < |sub|
    ensures !Contains(s, sub)
    decreases |s|
  {
    if s != [] {
      ShorterLacks(s[1..], sub);
    }
  }

  /** A name that starts "fetch" but not "fetcha", with no other 'f', does not contain "fetchall". */
  lemma LacksFetchAll(s: string)
    requires |s| >= 8 && s[5] != 'a' && 'f' !in s[1..]
    ensures !Contains(s, "fetchall")
  {
    assert s[5] != "fetchall"[5];
    NoFStart(s[1..], "fetchall");
  }

  /** Text without the letter 'f' contains nothing that starts with 'f'. */
  lemma {:induction false} NoFStart(s: string, sub: string)
    requires sub != [] && sub[0] == 'f' && 'f' !in s
    ensures !Contains(s, sub)
    decreases |s|
  {
    if s != [] {
      assert s[0] != sub[0];
      assert s[1..] <= s[1..];
      NoFStart(s[1..], sub);
    }
  }

  lemma FetchAllExample()
    ensures ClassifyQuery(SchemaField("fetchAllDatasets", ListOf(Model("Dataset")))) == Ok(FetchAll)
  {
    assert Lower("fetchAllDatasets") == "fetchalldatasets";
    assert "fetchall" <= Lower("fetchAllDatasets");
  }

  lemma FetchByIdExample()
    ensures ClassifyQuery(SchemaField("FetchDatasetById", Model("Dataset"))) == Ok(FetchById)
  {
    var n := Lower("FetchDatasetById");
    assert n == "fetchdatasetbyid" by {
      assert forall i :: 0 <= i < 16 ==> n[i] == "fetchdatasetbyid"[i];
    }
    FetchByIdText(n, 12);
  }

  /** A lower-case name "fetch…byid" with no other 'f' and no "a" after "fetch" is a by-id name. */
  lemma FetchByIdText(n: string, k: nat)
    requires |n| == k + 4 && k >= 5 && n[..5] == "fetch" && n[k..] == "byid"
    requires n[5] != 'a' && 'f' !in n[1..]
    ensures !Contains(n, "fetchall") && Contains(n, "fetch") && Contains(n, "byid")
  {
    assert "fetch" <= n;
    assert "byid" <= n[k..];
    ContainsSuffix(n, k, "byid");
    LacksFetchAll(n);
  }

  /** The finding's witness: a list-typed by-id field, rejected by the intended check only. */
  lemma ListByIdExample()
    ensures ClassifyQuery(SchemaField("fetchById", ListOf(Model("Dataset")))) == Err(ListById("fetchById"))
    ensures ClassifyQueryAsWritten(SchemaField("fetchById", ListOf(Model("Dataset")))) == Ok(FetchById)
  {
    assert Lower("fetchById") == "fetchbyid";
    FetchByIdText("fetchbyid", 5);
  }

  lemma UnknownQueryExample()
    ensures ClassifyQuery(SchemaField("datasets", ListOf(Model("Dataset")))) == Err(UnknownQuery("datasets"))
  {
    var n := Lower("datasets");
    assert n == "datasets";
    assert 'f' !in n;
    NoFStart(n, "fetch");
  }

  /** What a suffix contains, the text contains. */
  lemma {:induction false} ContainsSuffix(s: string, k: nat, sub: string)
    requires k <= |s| && Contains(s[k..], sub)
    ensures Contains(s, sub)
    decreases k
  {
    if k > 0 {
      assert s[1..][k - 1..] == s[k..];
      ContainsSuffix(s[1..], k - 1, sub);
    }
  }

  /**
   * The resolvers bound to a Mutation field: three independent prefix tests
   * on the lower-cased name.  A name with none of the prefixes is left
   * without a resolver.
   */
  function MutationResolvers(name: string): (r: seq<MutationKind>)
    ensures CreateMutation in r <==> "create" <= Lower(name)
    ensures UpdateMutation in r <==> "update" <= Lower(name)
    ensures DeleteMutation in r <==> "delete" <= Lower(name)
  {
    var n := Lower(name);
    (if "create" <= n then [CreateMutation] else [])
    + (if "update" <= n then [UpdateMutation] else [])
    + (if "delete" <= n then [DeleteMutation] else [])
  }

  /** The three prefixes exclude each other: at most one resolver is bound. */
  lemma AtMostOneMutationResolver(name: string)
    ensures |MutationResolvers(name)| <= 1
  {
    var n := Lower(name);
    if "create" <= n {
      assert n[0] == 'c';
      assert !("update" <= n) && !("delete" <= n);
    } else if "update" <= n {
      assert n[0] == 'u';
      assert !("delete" <= n);
    }
  }

  /**
   * The resolvers the loop over the Query fields binds, field by field, or
   * the error of the first field that cannot be bound.
   */
  function BoundQueries(fields: seq<SchemaField>): (r: Result<seq<QueryBinding>, SchemaError>)
    ensures r.Ok? <==> forall i :: 0 <= i < |fields| ==> ClassifyQuery(fields[i]).Ok?
    ensures r.Ok? ==> |r.value| == |fields| && forall i :: 0 <= i < |fields| ==> r.value[i] == ClassifyQuery(fields[i]).value
    ensures r.Err? ==> r.error.ListById? || r.error.UnknownQuery?
  {
    if fields == [] then Ok([])
    else
      var init := fields[..|fields| - 1];
      assert forall i :: 0 <= i < |init| ==> init[i] == fields[i];
      match BoundQueries(init)
      case Err(e) => Err(e)
      case Ok(bs) =>
        match ClassifyQuery(fields[|fields| - 1])
        case Err(e) => Err(e)
        case Ok(b) => Ok(bs + [b])
  }

  /** The binding stops at the first field that cannot be bound, with its error. */
  lemma {:induction false} BoundQueriesStops(fields: seq<SchemaField>, n: nat)
    requires n < |fields| && ClassifyQuery(fields[n]).Err?
    requires forall k :: 0 <= k < n ==> ClassifyQuery(fields[k]).Ok?
    ensures BoundQueries(fields) == Err(ClassifyQuery(fields[n]).error)
    decreases |fields|
  {
    var init := fields[..|fields| - 1];
    if n < |init| {
      assert init[n] == fields[n];
      assert forall k :: 0 <= k < n ==> init[k] == fields[k];
      BoundQueriesStops(init, n);
    } else {
      assert forall k :: 0 <= k < |init| ==> init[k] == fields[k];
    }
  }

  /** The resolvers bound to each Mutation field, field by field. */
  function MutationTable(fields: seq<SchemaField>): (r: seq<seq<MutationKind>>)
    ensures |r| == |fields| && forall i :: 0 <= i < |fields| ==> |r[i]| <= 1
  {
    seq(|fields|, i => if 0 <= i < |fields| then AtMostOne(fields[i].name) else [])
  }

  function AtMostOne(name: string): (r: seq<MutationKind>)
    ensures r == MutationResolvers(name) && |r| <= 1
  {
    AtMostOneMutationResolver(name);
    MutationResolvers(name)
  }

  /** A class the schema's type map holds, with what its definition says of it. */
  datatype SchemaType = SchemaType(cls: ModelClass, isObject: bool, isInput: bool)

  /** The schema types that are model types: object types that are not inputs, nor Query or Mutation. */
  predicate Collected(t: SchemaType, query: string, mutation: Option<string>) {
    t.isObject && !t.isInput && t.cls.name != query && mutation != Some(t.cls.name)
  }

  /** The list comprehension over the schema's type map, in its order. */
  function SchemaModelTypes(typeMap: seq<SchemaType>, query: string, mutation: Option<string>): (r: seq<ModelClass>)
    ensures |r| <= |typeMap|
    ensures forall i :: 0 <= i < |typeMap| && Collected(typeMap[i], query, mutation) ==> typeMap[i].cls in r
    ensures forall c :: c in r ==> exists i :: 0 <= i < |typeMap| && typeMap[i].cls == c && Collected(typeMap[i], query, mutation)
  {
    if typeMap == [] then []
    else
      var rest := SchemaModelTypes(typeMap[1..], query, mutation);
      assert forall i :: 1 <= i < |typeMap| ==> typeMap[i] == typeMap[1..][i - 1];
      assert forall c :: c in rest ==> exists i :: 0 <= i < |typeMap| && typeMap[i].cls == c && Collected(typeMap[i], query, mutation) by {
        forall c | c in rest
          ensures exists i :: 0 <= i < |typeMap| && typeMap[i].cls == c && Collected(typeMap[i], query, mutation)
        {
          var i :| 0 <= i < |typeMap[1..]| && typeMap[1..][i].cls == c && Collected(typeMap[1..][i], query, mutation);
          assert typeMap[i + 1] == typeMap[1..][i];
        }
      }
      if Collected(typeMap[0], query, mutation) then [typeMap[0].cls] + rest else rest
  }

  /**
   * Validation decides the outcome, and the tables are those of the
   * validated model types.
   */
  predicate MapsValidated(ts: seq<ModelClass>, r: Outcome<SchemaError>, tableNames: map<string, string>, attrs: map<AttrKey, Attr>) {
    (r.Pass? || r.error.Invalid?)
    && ValidateModelClasses(ts) == (if r.Pass? then Pass else Fail(r.error.e))
    && (r.Pass? ==> ClassesAccepted(Current, ts, ts)
                    && tableNames == TableNames(ts) && attrs == Applied(map[], AllWrites(Current, ts, ts)))
  }

  /** Both input types of the model type `t` have been derived. */
  predicate Derived(creates: map<string, seq<Field>>, updates: map<string, seq<Field>>, t: Ty) {
    t.Model? && t.name in creates && t.name in updates
  }

  /** Memos that only grow keep every field type derived so far, and gain the `i`th. */
  lemma DerivedGrows(c: map<string, seq<Field>>, u: map<string, seq<Field>>,
                     c2: map<string, seq<Field>>, u2: map<string, seq<Field>>, fields: seq<SchemaField>, i: nat)
    requires i < |fields| && c.Keys <= c2.Keys && u.Keys <= u2.Keys
    requires forall k :: 0 <= k < i ==> Derived(c, u, fields[k].ty)
    requires Derived(c2, u2, fields[i].ty)
    ensures forall k :: 0 <= k < i + 1 ==> Derived(c2, u2, fields[k].ty)
  {
    forall k | 0 <= k < i + 1 ensures Derived(c2, u2, fields[k].ty) {
      if k < i {
        assert Derived(c, u, fields[k].ty);
      }
    }
  }

  /** Binding the `i`th field's resolvers after those of the fields before it. */
  lemma ResolversGrow(bs: seq<seq<MutationKind>>, fields: seq<SchemaField>, i: nat)
    requires i < |fields| && |bs| == i
    requires forall k :: 0 <= k < i ==> bs[k] == MutationResolvers(fields[k].name)
    ensures var bs2 := bs + [MutationResolvers(fields[i].name)];
            forall k :: 0 <= k < i + 1 ==> bs2[k] == MutationResolvers(fields[k].name)
  {
  }

  /** The fields before the `i`th, and the `i`th, are fully derivable. */
  lemma FullyDerivableGrows(world: seq<ModelClass>, fields: seq<SchemaField>, i: nat)
    requires i < |fields|
    requires forall k :: 0 <= k < i ==> FullyDerivable(world, fields[k].ty)
    requires FullyDerivable(world, fields[i].ty)
    ensures forall k :: 0 <= k < i + 1 ==> FullyDerivable(world, fields[k].ty)
  {
  }

  /** Every type the derivations of the Mutation fields' types reach is a model type. */
  ghost predicate AllFullyDerivable(world: seq<ModelClass>, fields: seq<SchemaField>) {
    forall i :: 0 <= i < |fields| ==> FullyDerivable(world, fields[i].ty)
  }

  /**
   * The type whose row the delete resolver of each Mutation field loads and
   * deletes, as intended: the field's own type (None for a field without a
   * delete resolver).
   */
  function DeleteTargets(fields: seq<SchemaField>): (r: seq<Option<Ty>>)
    ensures |r| == |fields|
    ensures forall i :: 0 <= i < |fields| ==> (r[i].Some? <==> DeleteMutation in MutationResolvers(fields[i].name))
    ensures forall i :: 0 <= i < |fields| && r[i].Some? ==> r[i].value == fields[i].ty
  {
    seq(|fields|, i => if 0 <= i < |fields| && DeleteMutation in MutationResolvers(fields[i].name) then Some(fields[i].ty) else None)
  }

  /**
   * As written: the body of `mutate_delete` reads the loop variable `field`
   * when the resolver is called, not when it is defined, and by then the
   * loop over the Mutation fields has left it on the last field; so every
   * delete resolver loads from the last Mutation field's type.
   */
  function DeleteTargetsAsWritten(fields: seq<SchemaField>): (r: seq<Option<Ty>>)
    ensures |r| == |fields|
    ensures forall i :: 0 <= i < |fields| ==> (r[i].Some? <==> DeleteMutation in MutationResolvers(fields[i].name))
    ensures forall i :: 0 <= i < |fields| && r[i].Some? ==> r[i].value == fields[|fields| - 1].ty
  {
    seq(|fields|, i => if 0 <= i < |fields| && DeleteMutation in MutationResolvers(fields[i].name) then Some(fields[|fields| - 1].ty) else None)
  }

  /**
   * As written, all delete resolvers share one target, and a field's
   * resolver loads its own type exactly when that is the last field's type.
   */
  lemma DeleteTargetsAsWrittenShared(fields: seq<SchemaField>, i: nat, j: nat)
    requires i < |fields| && j < |fields|
    requires DeleteMutation in MutationResolvers(fields[i].name) && DeleteMutation in MutationResolvers(fields[j].name)
    ensures DeleteTargetsAsWritten(fields)[i] == DeleteTargetsAsWritten(fields)[j]
    ensures DeleteTargetsAsWritten(fields)[i] == DeleteTargets(fields)[i] <==> fields[i].ty == fields[|fields| - 1].ty
  {
  }

  /** As intended, delete resolvers of fields of different types load different types. */
  lemma DeleteTargetsSeparate(fields: seq<SchemaField>, i: nat, j: nat)
    requires i < |fields| && j < |fields| && fields[i].ty != fields[j].ty
    requires DeleteMutation in MutationResolvers(fields[i].name) && DeleteMutation in MutationResolvers(fields[j].name)
    ensures DeleteTargets(fields)[i] == Some(fields[i].ty) && DeleteTargets(fields)[j] == Some(fields[j].ty)
    ensures DeleteTargets(fields)[i] != DeleteTargets(fields)[j]
  {
  }

  /**
   * The manager and what `schema` leaves behind: the resolvers bound to the
   * Query and Mutation fields, the input types derived on the model types
   * (one memo per kind), and the tables the model types are mapped to.
   */
  class StrawchemyManager {
    const queryName: string
    const queryFields: seq<SchemaField>
    const mutation: Option<(string, seq<SchemaField>)>
    const creates: Deriver
    const updates: Deriver
    var queryBindings: seq<QueryBinding>
    var mutationBindings: seq<seq<MutationKind>>
    /** The type each Mutation field's delete resolver loads from, as intended. */
    var deleteTargets: seq<Option<Ty>>
    /** The type each Mutation field's delete resolver loads from as written. */
    ghost var deleteTargetsAsWritten: seq<Option<Ty>>
    var tableNames: map<string, string>
    var attrs: map<AttrKey, Attr>

    ghost predicate Valid()
      reads this, creates, updates
    {
      creates != updates && creates.kind == Create && updates.kind == Update
      && creates.world == updates.world && creates.Valid() && updates.Valid()
    }

    /** Both memos hold only complete derived types: true of fresh memos, and kept by derivations that pass. */
    ghost predicate MemosClosed()
      reads this, creates, updates
    {
      InputTypes.Closed(creates.kind, creates.world, creates.derived) && InputTypes.Closed(updates.kind, updates.world, updates.derived)
    }

    /** `world` is the set of model classes the Query and Mutation types refer to. */
    constructor (world: seq<ModelClass>, queryName: string, queryFields: seq<SchemaField>,
                 mutation: Option<(string, seq<SchemaField>)>)
      ensures Valid() && fresh(creates) && fresh(updates)
      ensures this.queryName == queryName && this.queryFields == queryFields && this.mutation == mutation
      ensures creates.world == world && creates.derived == map[] && updates.derived == map[]
      ensures queryBindings == [] && mutationBindings == [] && deleteTargets == [] && deleteTargetsAsWritten == []
      ensures tableNames == map[] && attrs == map[]
      ensures MemosClosed()
    {
      this.queryName := queryName;
      this.queryFields := queryFields;
      this.mutation := mutation;
      creates := new Deriver(Create, world);
      updates := new Deriver(Update, world);
      queryBindings := [];
      mutationBindings := [];
      deleteTargets := [];
      deleteTargetsAsWritten := [];
      tableNames := map[];
      attrs := map[];
    }

    function MutationFields(): seq<SchemaField>
      reads this
    {
      if mutation.Some? then mutation.value.1 else []
    }

    function MutationName(): Option<string>
      reads this
    {
      if mutation.Some? then Some(mutation.value.0) else None
    }

    /**
     * `schema`: binds the Query fields, then derives the input types of
     * each Mutation field's type and binds its resolvers, then validates the
     * model types the schema collects and, only when they are valid, maps
     * them to tables.  `typeMap` is the schema's type map.
     */
    method Schema(typeMap: seq<SchemaType>) returns (r: Outcome<SchemaError>)
      requires Valid()
      modifies this, creates, updates
      ensures Valid()
      ensures Extends(old(creates.derived), creates.derived) && Extends(old(updates.derived), updates.derived)
      ensures BoundQueries(queryFields).Err? ==> r == Fail(BoundQueries(queryFields).error)
      ensures r.Pass? ==> BoundQueries(queryFields) == Ok(queryBindings)
      ensures r.Pass? ==> mutationBindings == MutationTable(MutationFields())
      ensures r.Pass? ==> forall i :: 0 <= i < |MutationFields()| ==> Derived(creates.derived, updates.derived, MutationFields()[i].ty)
      ensures r.Pass? ==> deleteTargets == DeleteTargets(MutationFields())
      ensures r.Pass? ==> deleteTargetsAsWritten == DeleteTargetsAsWritten(MutationFields())
      ensures r.Pass? ==> forall i :: 0 <= i < |queryFields| ==> ClassifyQueryAsWritten(queryFields[i]) == Ok(queryBindings[i])
      ensures r.Fail? && r.error.ListById? ==>
                exists i :: 0 <= i < |queryFields| && ClassifyQueryAsWritten(queryFields[i]) == Ok(FetchById)
                            && queryFields[i].name == r.error.field && queryFields[i].ty.ListOf?
      ensures r.Fail? && r.error.NotDerivable? ==>
                BoundQueries(queryFields).Ok? && !IsObjectType(creates.world, r.error.t)
                && exists i :: 0 <= i < |MutationFields()| && Reaches(creates.world, MutationFields()[i].ty, r.error.t)
      ensures BoundQueries(queryFields).Ok? && AllFullyDerivable(creates.world, MutationFields()) ==> r.Pass? || r.error.Invalid?
      ensures old(MemosClosed()) && BoundQueries(queryFields).Ok? ==>
                (r.Fail? && r.error.NotDerivable? <==> !AllFullyDerivable(creates.world, MutationFields()))
      ensures r.Pass? || r.error.Invalid? ==> MapsValidated(SchemaModelTypes(typeMap, queryName, MutationName()), r, tableNames, attrs)
      ensures r.Fail? ==> tableNames == old(tableNames) && attrs == old(attrs)
    {
      r := BindQueries();
      if r.Fail? {
        if r.error.ListById? {
          var i :| 0 <= i < |queryFields| && ClassifyQuery(queryFields[i]) == Err(r.error);
          ListByIdAcceptedAsWritten(queryFields[i]);
        }
        return;
      }
      forall i | 0 <= i < |queryFields| ensures ClassifyQueryAsWritten(queryFields[i]) == Ok(queryBindings[i]) {
        ListByIdAcceptedAsWritten(queryFields[i]);
      }
      r := BindMutations();
      if r.Fail? {
        return;
      }
      var ts := SchemaModelTypes(typeMap, queryName, MutationName());
      r := ValidateAndMap(ts);
    }

    /** `validate_model_classes`, then `create_sqlalchemy_types` only when it passes. */
    method ValidateAndMap(ts: seq<ModelClass>) returns (r: Outcome<SchemaError>)
      modifies this
      ensures queryBindings == old(queryBindings) && mutationBindings == old(mutationBindings)
      ensures deleteTargets == old(deleteTargets) && deleteTargetsAsWritten == old(deleteTargetsAsWritten)
      ensures MapsValidated(ts, r, tableNames, attrs)
      ensures r.Fail? ==> tableNames == old(tableNames) && attrs == old(attrs)
    {
      var v := ValidateModelClasses(ts);
      if v.Fail? {
        return Fail(Invalid(v.error));
      }
      tableNames, attrs := MapTypes(ts);
      r := Pass;
    }

    /** A fresh mapper's `create_sqlalchemy_types` on the validated model types. */
    static method MapTypes(ts: seq<ModelClass>) returns (t: map<string, string>, a: map<AttrKey, Attr>)
      requires ValidateModelClasses(ts).Pass?
      ensures ClassesAccepted(Current, ts, ts)
      ensures t == TableNames(ts) && a == Applied(map[], AllWrites(Current, ts, ts))
    {
      var mapper := new Mapper(ts);
      mapper.CreateSqlalchemyTypes();
      Maps.MergeEmpty(TableNames(ts));
      t, a := mapper.tableNames, mapper.attrs;
    }

    /** The loop over the Query fields. */
    method BindQueries() returns (r: Outcome<SchemaError>)
      modifies this
      ensures mutationBindings == old(mutationBindings) && tableNames == old(tableNames) && attrs == old(attrs)
      ensures deleteTargets == old(deleteTargets) && deleteTargetsAsWritten == old(deleteTargetsAsWritten)
      ensures r.Pass? <==> BoundQueries(queryFields).Ok?
      ensures r.Pass? ==> queryBindings == BoundQueries(queryFields).value
      ensures r.Fail? ==> r.error == BoundQueries(queryFields).error
      ensures r.Fail? ==> exists i :: 0 <= i < |queryFields| && ClassifyQuery(queryFields[i]) == Err(r.error)
    {
      var bs: seq<QueryBinding> := [];
      var i := 0;
      while i < |queryFields|
        invariant 0 <= i <= |queryFields| && |bs| == i
        invariant forall k :: 0 <= k < i ==> ClassifyQuery(queryFields[k]) == Ok(bs[k])
        invariant mutationBindings == old(mutationBindings) && tableNames == old(tableNames) && attrs == old(attrs)
        invariant deleteTargets == old(deleteTargets) && deleteTargetsAsWritten == old(deleteTargetsAsWritten)
      {
        var b := ClassifyQuery(queryFields[i]);
        if b.Err? {
          BoundQueriesStops(queryFields, i);
          return Fail(b.error);
        }
        bs := bs + [b.value];
        i := i + 1;
      }
      queryBindings := bs;
      r := Pass;
    }

    /** The Mutation fields: the resolvers and both input types of each, then the delete targets. */
    method BindMutations() returns (r: Outcome<SchemaError>)
      requires Valid()
      modifies this, creates, updates
      ensures Valid()
      ensures queryBindings == old(queryBindings) && tableNames == old(tableNames) && attrs == old(attrs)
      ensures Extends(old(creates.derived), creates.derived) && Extends(old(updates.derived), updates.derived)
      ensures r.Fail? ==> r.error.NotDerivable? && !IsObjectType(creates.world, r.error.t)
      ensures r.Fail? ==> exists i :: 0 <= i < |MutationFields()| && Reaches(creates.world, MutationFields()[i].ty, r.error.t)
                            && (old(MemosClosed()) ==> forall k :: 0 <= k < i ==> FullyDerivable(creates.world, MutationFields()[k].ty))
      ensures AllFullyDerivable(creates.world, MutationFields()) ==> r.Pass?
      ensures old(MemosClosed()) ==> (r.Pass? <==> AllFullyDerivable(creates.world, MutationFields()))
      ensures old(MemosClosed()) && r.Pass? ==> MemosClosed()
      ensures r.Pass? ==> mutationBindings == MutationTable(MutationFields())
      ensures r.Pass? ==> deleteTargets == DeleteTargets(MutationFields())
      ensures r.Pass? ==> deleteTargetsAsWritten == DeleteTargetsAsWritten(MutationFields())
      ensures r.Pass? ==> forall i :: 0 <= i < |MutationFields()| ==> Derived(creates.derived, updates.derived, MutationFields()[i].ty)
    {
      var fields := MutationFields();
      var bs;
      r, bs := DeriveMutationFields(fields);
      assert fields == MutationFields();
      if r.Fail? {
        return;
      }
      mutationBindings := bs;
      deleteTargets := DeleteTargets(fields);
      deleteTargetsAsWritten := DeleteTargetsAsWritten(fields);
    }

    /** The loop over the Mutation fields `fields`, up to the first whose input types cannot be derived. */
    method DeriveMutationFields(fields: seq<SchemaField>) returns (r: Outcome<SchemaError>, bs: seq<seq<MutationKind>>)
      requires Valid()
      modifies creates, updates
      ensures Valid()
      ensures Extends(old(creates.derived), creates.derived) && Extends(old(updates.derived), updates.derived)
      ensures r.Fail? ==> r.error.NotDerivable? && !IsObjectType(creates.world, r.error.t)
      ensures r.Fail? ==> exists i :: 0 <= i < |fields| && Reaches(creates.world, fields[i].ty, r.error.t)
                            && (old(MemosClosed()) ==> forall k :: 0 <= k < i ==> FullyDerivable(creates.world, fields[k].ty))
      ensures AllFullyDerivable(creates.world, fields) ==> r.Pass?
      ensures old(MemosClosed()) ==> (r.Pass? <==> AllFullyDerivable(creates.world, fields))
      ensures old(MemosClosed()) && r.Pass? ==> MemosClosed()
      ensures r.Pass? ==> bs == MutationTable(fields)
      ensures r.Pass? ==> forall i :: 0 <= i < |fields| ==> Derived(creates.derived, updates.derived, fields[i].ty)
    {
      ghost var closed, world := MemosClosed(), creates.world;
      bs := [];
      var i := 0;
      while i < |fields|
        invariant 0 <= i <= |fields| && Valid() && |bs| == i && creates.world == world
        invariant forall k :: 0 <= k < i ==> bs[k] == MutationResolvers(fields[k].name)
        invariant Extends(old(creates.derived), creates.derived) && Extends(old(updates.derived), updates.derived)
        invariant forall k :: 0 <= k < i ==> Derived(creates.derived, updates.derived, fields[k].ty)
        invariant closed ==> MemosClosed()
        invariant closed ==> forall k :: 0 <= k < i ==> FullyDerivable(world, fields[k].ty)
      {
        ghost var c, u := creates.derived, updates.derived;
        var d := DeriveBoth(fields[i].ty);
        if d.Fail? {
          assert Reaches(creates.world, fields[i].ty, d.error);
          r := Fail(NotDerivable(d.error));
          return;
        }
        DerivedGrows(c, u, creates.derived, updates.derived, fields, i);
        ResolversGrow(bs, fields, i);
        bs := bs + [MutationResolvers(fields[i].name)];
        if closed {
          FullyDerivableGrows(world, fields, i);
        }
        i := i + 1;
      }
      r := Pass;
    }

    /** The create type, then the update type, of one mutation field's type. */
    method DeriveBoth(t: Ty) returns (r: Outcome<Ty>)
      requires Valid()
      modifies creates, updates
      ensures Valid()
      ensures Extends(old(creates.derived), creates.derived) && Extends(old(updates.derived), updates.derived)
      ensures old(creates.derived).Keys <= creates.derived.Keys && old(updates.derived).Keys <= updates.derived.Keys
      ensures r.Fail? ==> !IsObjectType(creates.world, r.error) && Reaches(creates.world, t, r.error)
      ensures FullyDerivable(creates.world, t) ==> r.Pass?
      ensures old(MemosClosed()) ==> (r.Pass? <==> FullyDerivable(creates.world, t))
      ensures old(MemosClosed()) && r.Pass? ==> MemosClosed()
      ensures r.Pass? ==> Derived(creates.derived, updates.derived, t)
    {
      r := creates.Derive(t);
      if r.Fail? {
        return;
      }
      ghost var c := creates.derived;
      r := updates.Derive(t);
      assert creates.derived == c;
    }
  }

  // ---------------------------------------------------------------------
  // The resolvers

  datatype ResolverError =
    | FalsyId                          // "Missing 'id' on update mutation input parameter"
    | NotFound(cls: string, id: Val)   // "Could not find <type> with id: '<id>'"
    | Materialize(e: MaterializeError)

  /** `session.get(cls, id)`: the row, when there is one and it is truthy. */
  function Get(rows: Session, cls: string, id: Val): Option<Val> {
    var key := RowKey(cls, id);
    if key in rows && Truthy(rows[key]) then Some(rows[key]) else None
  }

  /** What `mutate_update` returns for an update input of the mutation's type `cls`. */
  function UpdateResult(world: seq<ModelClass>, rows: Session, cls: string, input: Val): (r: Result<Val, ResolverError>)
    ensures r.Ok? ==> IdOf(world, input).Some? && Truthy(IdOf(world, input).value)
                      && Get(rows, cls, IdOf(world, input).value).Some?
    ensures r.Err? && r.error.NotFound? ==> r.error.cls == cls
  {
    match IdOf(world, input)
    case None => Err(Materialize(Malformed))
    case Some(id) =>
      if !Truthy(id) then Err(FalsyId)
      else match Get(rows, cls, id)
        case None => Err(NotFound(cls, id))
        case Some(obj) =>
          match Updated(world, rows, input, obj)
          case Err(e) => Err(Materialize(e))
          case Ok(o) => Ok(o)
  }

  /**
   * The update resolver rejects an input without a truthy id, and one whose
   * row is missing; what it returns is the stored row updated in place,
   * with the class and the id it had.
   */
  lemma UpdateResolverSpec(world: seq<ModelClass>, rows: Session, cls: string, input: Val)
    ensures var id := IdOf(world, input);
            UpdateResult(world, rows, cls, input) == Err(FalsyId) <==> id.Some? && !Truthy(id.value)
    ensures var id := IdOf(world, input);
            UpdateResult(world, rows, cls, input).Err? && UpdateResult(world, rows, cls, input).error.NotFound? <==>
              id.Some? && Truthy(id.value) && Get(rows, cls, id.value).None?
    ensures UpdateResult(world, rows, cls, input).Ok? ==>
              var id := IdOf(world, input).value;
              var o := UpdateResult(world, rows, cls, input).value;
              Get(rows, cls, id).Some? && o.ObjV? && o.cls == Get(rows, cls, id).value.cls
              && IdOf(world, o) == IdOf(world, Get(rows, cls, id).value)
  {
    var r := UpdateResult(world, rows, cls, input);
    if r.Ok? {
      var id := IdOf(world, input).value;
      UpdateKeepsIdentity(world, rows, input, Get(rows, cls, id).value);
    }
  }

  /** What `mutate_delete` returns for the id of a row of `cls`. */
  function DeleteResult(rows: Session, cls: string, id: Val): (r: Result<Val, ResolverError>)
    ensures r.Ok? <==> Get(rows, cls, id).Some?
    ensures r.Ok? ==> r.value == rows[RowKey(cls, id)]
    ensures r.Err? ==> r.error == NotFound(cls, id)
  {
    match Get(rows, cls, id)
    case None => Err(NotFound(cls, id))
    case Some(obj) => Ok(obj)
  }

  /**
   * What the delete resolver of Mutation field `i` returns as written: the
   * row comes from the last Mutation field's type, while the error names
   * the field's own return type (`info.return_type`).
   */
  function DeleteResultAsWritten(fields: seq<SchemaField>, i: nat, rows: Session, id: Val): (r: Result<Val, ResolverError>)
    requires i < |fields| && fields[i].ty.Model? && fields[|fields| - 1].ty.Model?
    ensures r.Ok? <==> Get(rows, fields[|fields| - 1].ty.name, id).Some?
    ensures r.Ok? ==> r.value == rows[RowKey(fields[|fields| - 1].ty.name, id)]
    ensures r.Err? ==> r.error == NotFound(fields[i].ty.name, id)
  {
    match Get(rows, fields[|fields| - 1].ty.name, id)
    case None => Err(NotFound(fields[i].ty.name, id))
    case Some(obj) => Ok(obj)
  }

  /**
   * With `deleteDataset` declared before `createSupplier`, deleting Dataset 1
   * returns (and deletes) Supplier 1 as written, and reports Dataset 1
   * missing when only the Dataset row exists.
   */
  lemma WrongTableDeleteExample()
    ensures var fields := [SchemaField("deleteDataset", Model("Dataset")), SchemaField("createSupplier", Model("Supplier"))];
            var dataset, supplier := ObjV("Dataset", [IntV(1)]), ObjV("Supplier", [IntV(1)]);
            var rows := map[RowKey("Dataset", IntV(1)) := dataset, RowKey("Supplier", IntV(1)) := supplier];
            && DeleteTargetsAsWritten(fields)[0] == Some(Model("Supplier"))
            && DeleteTargets(fields)[0] == Some(Model("Dataset"))
            && DeleteResultAsWritten(fields, 0, rows, IntV(1)) == Ok(supplier)
            && DeleteResult(rows, "Dataset", IntV(1)) == Ok(dataset)
            && DeleteResultAsWritten(fields, 0, map[RowKey("Dataset", IntV(1)) := dataset], IntV(1)) == Err(NotFound("Dataset", IntV(1)))
            && DeleteResult(map[RowKey("Dataset", IntV(1)) := dataset], "Dataset", IntV(1)) == Ok(dataset)
  {
    assert Lower("deleteDataset") == "deletedataset";
    assert "delete" <= Lower("deleteDataset");
  }

  /**
   * The session the resolvers share: the committed rows by class and id,
   * and the objects added by the create resolver.
   */
  class DatabaseSession {
    var rows: Session
    var added: seq<Val>

    constructor (rows: Session)
      ensures this.rows == rows && added == []
    {
      this.rows := rows;
      added := [];
    }

    /** `mutate_create`: builds the object from the input, adds it and commits. */
    method MutateCreate(world: seq<ModelClass>, cls: string, input: Val) returns (r: Result<Val, ResolverError>)
      modifies this
      ensures rows == old(rows)
      ensures match Made(world, old(rows), cls, input)
              case Err(e) => r == Err(Materialize(e)) && added == old(added)
              case Ok(o) => r == Ok(o) && added == old(added) + [o]
    {
      var o := MakeObject(world, rows, cls, input);
      if o.Err? {
        return Err(Materialize(o.error));
      }
      added := added + [o.value];
      r := Ok(o.value);
    }

    /** `mutate_update`: checks the id, loads the row, updates it and commits. */
    method MutateUpdate(world: seq<ModelClass>, cls: string, input: Val) returns (r: Result<Val, ResolverError>)
      modifies this
      ensures r == UpdateResult(world, old(rows), cls, input) && added == old(added)
      ensures r.Ok? ==> rows == old(rows)[RowKey(cls, IdOf(world, input).value) := r.value]
      ensures r.Err? ==> rows == old(rows)
    {
      var id := IdOf(world, input);
      if id.None? {
        return Err(Materialize(Malformed));
      }
      if !Truthy(id.value) {
        return Err(FalsyId);
      }
      var obj := Get(rows, cls, id.value);
      if obj.None? {
        return Err(NotFound(cls, id.value));
      }
      var o := UpdateObject(world, rows, input, obj.value);
      if o.Err? {
        return Err(Materialize(o.error));
      }
      rows := rows[RowKey(cls, id.value) := o.value];
      r := Ok(o.value);
    }

    /** `mutate_delete`: loads the row, deletes it, commits and returns it. */
    method MutateDelete(cls: string, id: Val) returns (r: Result<Val, ResolverError>)
      modifies this
      ensures r == DeleteResult(old(rows), cls, id) && added == old(added)
      ensures r.Ok? ==> rows == old(rows) - {RowKey(cls, id)}
      ensures r.Err? ==> rows == old(rows)
    {
      var obj := Get(rows, cls, id);
      if obj.None? {
        return Err(NotFound(cls, id));
      }
      rows := rows - {RowKey(cls, id)};
      r := Ok(obj.value);
    }
  }

  /** A row once deleted cannot be deleted, or updated, again. */
  lemma DeletedRowIsGone(world: seq<ModelClass>, rows: Session, cls: string, id: Val, input: Val)
    requires DeleteResult(rows, cls, id).Ok?
    requires IdOf(world, input) == Some(id) && Truthy(id)
    ensures DeleteResult(rows - {RowKey(cls, id)}, cls, id) == Err(NotFound(cls, id))
    ensures UpdateResult(world, rows - {RowKey(cls, id)}, cls, input) == Err(NotFound(cls, id))
  {
  }
}
