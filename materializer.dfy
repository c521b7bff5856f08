/**
 * Building and merging object trees from mutation inputs: `make_object`,
 * `__lookup_items_with_ids`, `update_object` and `merge_lists`.
 *
 * Objects are values here.  An object is its class name and its attribute
 * values in the order of the class's fields; an input object carries the name
 * of the model type it was derived from (its `__strawchemy_origin_type__`) and
 * its values in the same order.  The database session is a finite map from
 * (class, id) to the row it returns.  Each operation returns the object (or
 * list) it builds or updates, or the error the source raises instead.
 */
module Materializer {
  import opened Wrappers
  import opened ModelTypes
  import opened InputTypes
  import opened Fixtures

  datatype Val =
    | NoneV
    | IntV(i: int)
    | StrV(s: string)
    | BoolV(b: bool)
    | ListV(items: seq<Val>)
    | ObjV(cls: string, vals: seq<Val>)

  /** Python truthiness: None, 0, "", False and [] are falsy; objects are truthy. */
  predicate Truthy(v: Val) {
    match v
    case NoneV => false
    case IntV(i) => i != 0
    case StrV(s) => s != ""
    case BoolV(b) => b
    case ListV(xs) => xs != []
    case ObjV(_, _) => true
  }

  datatype RowKey = RowKey(cls: string, id: Val)

  /** What the session returns for a class and an id; a missing key is a missing row. */
  type Session = map<RowKey, Val>

  datatype MaterializeError =
    | Malformed                 // an attribute read on a value without it (AttributeError, TypeError)
    | NotAClass(field: string)  // a nested value built with an Optional or List annotation as its class
    | StopIteration(id: Val)    // `next()` found no list element with the id
    | ItemNotFound(id: Val)     // "Item in list with id that does not exist"

  /** The type under one `Optional` wrapper (`field.type.of_type` for an Optional field). */
  function Strip(t: Ty): Ty {
    if t.Opt? then t.inner else t
  }

  /**
   * An input field whose (unwrapped) type is a list.  The input field types
   * are derived from the model type's; this holds of the input field exactly
   * when it holds of the model field.
   */
  predicate IsListField(t: Ty) {
    Strip(t).ListOf?
  }

  /** The value of the `id` attribute, when the value has one. */
  function IdOf(world: seq<ModelClass>, v: Val): (r: Option<Val>)
    ensures r.Some? ==> v.ObjV?
  {
    if v.ObjV? && v.cls in Names(world) && "id" in FieldNames(FieldsOf(world, v.cls))
       && FieldIndex(FieldsOf(world, v.cls), "id") < |v.vals|
    then Some(v.vals[FieldIndex(FieldsOf(world, v.cls), "id")])
    else None
  }

  /** An object of the class `t` with one value per field. */
  predicate Shaped(world: seq<ModelClass>, t: string, v: Val) {
    t in Names(world) && v.ObjV? && |v.vals| == |FieldsOf(world, t)|
  }

  /** The values of a sequence of results, or the first error among them. */
  function Collect(rs: seq<Result<Val, MaterializeError>>): (r: Result<seq<Val>, MaterializeError>)
    ensures r.Ok? <==> forall i :: 0 <= i < |rs| ==> rs[i].Ok?
    ensures r.Ok? ==> |r.value| == |rs| && forall i :: 0 <= i < |rs| ==> r.value[i] == rs[i].value
  {
    if rs == [] then Ok([])
    else match rs[0]
      case Err(e) => Err(e)
      case Ok(x) =>
        match Collect(rs[1..])
        case Err(e) => Err(e)
        case Ok(xs) => Ok([x] + xs)
  }

  /** The values of results that are all successes. */
  lemma CollectAllOk(rs: seq<Result<Val, MaterializeError>>, vals: seq<Val>)
    requires |rs| == |vals| && forall k :: 0 <= k < |rs| ==> rs[k] == Ok(vals[k])
    ensures Collect(rs) == Ok(vals)
  {
    assert Collect(rs).value == vals;
  }

  /** The error of the results is that of the first failing one. */
  lemma {:induction false} CollectFirstError(rs: seq<Result<Val, MaterializeError>>, i: nat)
    requires i < |rs| && rs[i].Err? && forall k :: 0 <= k < i ==> rs[k].Ok?
    ensures Collect(rs) == Err(rs[i].error)
  {
    if i > 0 {
      CollectFirstError(rs[1..], i - 1);
    }
  }

  // ---------------------------------------------------------------------
  // make_object and __lookup_items_with_ids

  /**
   * `make_object(type_, input_)`: each field of the input gives a value —
   * None gives `[]` for a list field and None otherwise; a nested object is
   * built with the field's declared class; a list builds each element with
   * the element class; anything else is copied — and the object so built is
   * then looked up against the session.
   */
  function Made(world: seq<ModelClass>, s: Session, t: string, input: Val): (r: Result<Val, MaterializeError>)
    ensures r.Ok? ==> r.value.ObjV? && r.value.cls == t && Shaped(world, t, r.value)
    decreases input, 2
  {
    if !Shaped(world, t, input) then Err(Malformed)
    else
      match Collect(MadeFields(world, s, t, input))
      case Err(e) => Err(e)
      case Ok(vals) => LookedUp(world, s, ObjV(t, vals))
  }

  /** The value of each field of the input, before the lookup. */
  function MadeFields(world: seq<ModelClass>, s: Session, t: string, input: Val): (r: seq<Result<Val, MaterializeError>>)
    requires Shaped(world, t, input)
    decreases input, 1
    ensures |r| == |input.vals|
  {
    var fs := FieldsOf(world, t);
    seq(|fs|, i => if 0 <= i < |fs| && i < |input.vals| then MadeField(world, s, fs[i], input.vals[i]) else Err(Malformed))
  }

  /** The value `make_object` gives one field, `f` being the declared field of the class built. */
  function MadeField(world: seq<ModelClass>, s: Session, f: Field, v: Val): Result<Val, MaterializeError>
    decreases v, 3
  {
    if v == NoneV then Ok(if IsListField(f.ty) then ListV([]) else NoneV)
    else if IsObjectType(world, Strip(f.ty)) then
      if f.ty.Model? then Made(world, s, f.ty.name, v) else Err(NotAClass(f.name))
    else if IsListField(f.ty) then
      if !v.ListV? then Err(Malformed)
      else if v.items == [] then Ok(ListV([]))
      else if f.ty.ListOf? && IsObjectType(world, f.ty.elem) then
        match Collect(MadeItems(world, s, f.ty.elem.name, v))
        case Err(e) => Err(e)
        case Ok(xs) => Ok(ListV(xs))
      else Err(NotAClass(f.name))
    else Ok(v)
  }

  /** The list comprehension building each element of a list input with the element class. */
  function MadeItems(world: seq<ModelClass>, s: Session, t: string, v: Val): (r: seq<Result<Val, MaterializeError>>)
    requires v.ListV?
    decreases v, 2
    ensures |r| == |v.items|
  {
    seq(|v.items|, k => if 0 <= k < |v.items| then Made(world, s, t, v.items[k]) else Err(Malformed))
  }

  /**
   * `__lookup_items_with_ids(obj)`: each truthy value of a field whose type is
   * a model type is replaced by the session's row of that class and id when
   * its id is not None and the row exists, kept when the row is missing, and
   * looked up in turn when its id is None.
   */
  function LookedUp(world: seq<ModelClass>, s: Session, v: Val): (r: Result<Val, MaterializeError>)
    ensures r.Ok? ==> v.ObjV? && r.value.ObjV? && r.value.cls == v.cls && Shaped(world, v.cls, r.value)
    decreases v, 2
  {
    if !v.ObjV? || !Shaped(world, v.cls, v) then Err(Malformed)
    else
      match Collect(LookedUpFields(world, s, v))
      case Err(e) => Err(e)
      case Ok(vals) => Ok(ObjV(v.cls, vals))
  }

  function LookedUpFields(world: seq<ModelClass>, s: Session, v: Val): (r: seq<Result<Val, MaterializeError>>)
    requires v.ObjV? && Shaped(world, v.cls, v)
    decreases v, 1
    ensures |r| == |v.vals|
  {
    var fs := FieldsOf(world, v.cls);
    seq(|fs|, i => if 0 <= i < |fs| && i < |v.vals| then LookedUpField(world, s, fs[i], v.vals[i]) else Err(Malformed))
  }

  function LookedUpField(world: seq<ModelClass>, s: Session, f: Field, x: Val): Result<Val, MaterializeError>
    decreases x, 3
  {
    if IsObjectType(world, f.ty) && Truthy(x) then
      match IdOf(world, x)
      case None => Err(Malformed)
      case Some(id) =>
        if id != NoneV then
          var key := RowKey(f.ty.name, id);
          Ok(if key in s && Truthy(s[key]) then s[key] else x)
        else LookedUp(world, s, x)
    else Ok(x)
  }

  // ---------------------------------------------------------------------
  // update_object and merge_lists

  /**
   * `update_object(input_, object_to_update)`: an input with a falsy id is
   * built afresh; otherwise each field other than `id` whose input value is
   * truthy is applied — a nested object updates the current one, a list is
   * merged into the current list, anything else is assigned — and the object
   * is returned.
   */
  function Updated(world: seq<ModelClass>, s: Session, input: Val, obj: Val): (r: Result<Val, MaterializeError>)
    ensures r.Ok? ==> input.ObjV? && r.value.ObjV? && r.value.cls == input.cls && Shaped(world, input.cls, r.value)
    decreases input, 2, 0
  {
    match IdOf(world, input)
    case None => Err(Malformed)
    case Some(id) =>
      if !Truthy(id) then Made(world, s, input.cls, input)
      else if !Shaped(world, input.cls, input) || !Shaped(world, input.cls, obj) || obj.cls != input.cls then Err(Malformed)
      else
        match Collect(UpdatedFields(world, s, input, obj))
        case Err(e) => Err(e)
        case Ok(vals) => Ok(ObjV(obj.cls, vals))
  }

  function UpdatedFields(world: seq<ModelClass>, s: Session, input: Val, obj: Val): (r: seq<Result<Val, MaterializeError>>)
    requires input.ObjV? && Shaped(world, input.cls, input) && Shaped(world, input.cls, obj)
    decreases input, 1, 0
    ensures |r| == |input.vals|
  {
    var fs := FieldsOf(world, input.cls);
    seq(|fs|, i => if 0 <= i < |fs| && i < |input.vals| && i < |obj.vals|
                then UpdatedField(world, s, fs[i], input.vals[i], obj.vals[i]) else Err(Malformed))
  }

  function UpdatedField(world: seq<ModelClass>, s: Session, f: Field, iv: Val, ov: Val): Result<Val, MaterializeError>
    decreases iv, 3, 0
  {
    if f.name == "id" || !Truthy(iv) then Ok(ov)
    else if iv.ObjV? then Updated(world, s, iv, ov)
    else if IsListField(f.ty) then
      if !ov.ListV? || !iv.ListV? then Err(Malformed)
      else
        match Merged(world, s, ov.items, iv, |iv.items|)
        case Err(e) => Err(e)
        case Ok(xs) => Ok(ListV(xs))
    else Ok(iv)
  }

  /** `merge_lists(existing, update)` after the first `n` items of the update. */
  function Merged(world: seq<ModelClass>, s: Session, existing: seq<Val>, upd: Val, n: nat): (r: Result<seq<Val>, MaterializeError>)
    requires upd.ListV? && n <= |upd.items|
    ensures r.Ok? ==> |existing| <= |r.value| <= |existing| + n
    decreases upd, 2, n
  {
    if n == 0 then Ok(existing)
    else
      match Merged(world, s, existing, upd, n - 1)
      case Err(e) => Err(e)
      case Ok(cur) => MergedItem(world, s, cur, upd.items[n - 1])
  }

  /** The ids of the elements of `xs`, as `x.id` reads them. */
  function Ids(world: seq<ModelClass>, xs: seq<Val>): (r: seq<Option<Val>>)
    ensures |r| == |xs| && forall k :: 0 <= k < |xs| ==> r[k] == IdOf(world, xs[k])
  {
    seq(|xs|, k requires 0 <= k < |xs| => IdOf(world, xs[k]))
  }

  /**
   * The position, from `from` on, of the first element whose id equals `id`,
   * reading each element's id in turn: `ids` are the elements' ids, and one
   * that cannot be read stops the search.
   */
  function FirstWithId(ids: seq<Option<Val>>, id: Val, from: nat): (r: Result<Option<nat>, MaterializeError>)
    requires from <= |ids|
    decreases |ids| - from
    ensures r.Ok? && r.value.Some? ==>
              from <= r.value.value < |ids| && ids[r.value.value] == Some(id)
              && forall k :: from <= k < r.value.value ==> ids[k].Some? && ids[k] != Some(id)
    ensures r.Ok? && r.value.None? ==>
              forall k :: from <= k < |ids| ==> ids[k].Some? && ids[k] != Some(id)
  {
    if from == |ids| then Ok(None)
    else match ids[from]
      case None => Err(Malformed)
      case Some(x) =>
        if x == id then Ok(Some(from)) else FirstWithId(ids, id, from + 1)
  }

  /**
   * One item of `merge_lists`: an item with a truthy id updates the first
   * element with that id, and one without is built, looked up and appended.
   * No element with the id is the error the source evidently intends
   * (`ItemNotFound`); see `MergedItemAsWritten` for the one it raises.
   */
  function MergedItem(world: seq<ModelClass>, s: Session, cur: seq<Val>, item: Val): (r: Result<seq<Val>, MaterializeError>)
    ensures r.Ok? ==> |cur| <= |r.value| <= |cur| + 1
    decreases item, 3, 0
  {
    match IdOf(world, item)
    case None => Err(Malformed)
    case Some(id) =>
      if Truthy(id) then
        match FirstWithId(Ids(world, cur), id, 0)
        case Err(e) => Err(e)
        case Ok(None) => Err(ItemNotFound(id))
        case Ok(Some(k)) =>
          match Updated(world, s, item, cur[k])
          case Err(e) => Err(e)
          case Ok(o) => Ok(cur[k := o])
      else
        match Made(world, s, item.cls, item)
        case Err(e) => Err(e)
        case Ok(o) =>
          match LookedUp(world, s, o)
          case Err(e) => Err(e)
          case Ok(o2) => Ok(cur + [o2])
  }

  /**
   * The item step as written: `next()` without a default raises
   * StopIteration when no element has the id, before the `ValueError` branch
   * is reached.
   */
  function MergedItemAsWritten(world: seq<ModelClass>, s: Session, cur: seq<Val>, item: Val): (r: Result<seq<Val>, MaterializeError>)
    ensures r.Ok? <==> MergedItem(world, s, cur, item).Ok?
    ensures r.Ok? ==> r == MergedItem(world, s, cur, item)
    ensures r.Err? && r.error.StopIteration? ==> MergedItem(world, s, cur, item).Err?
  {
    match IdOf(world, item)
    case None => Err(Malformed)
    case Some(id) =>
      if Truthy(id) then
        match FirstWithId(Ids(world, cur), id, 0)
        case Err(e) => Err(e)
        case Ok(None) => Err(StopIteration(id))
        case Ok(Some(k)) =>
          match Updated(world, s, item, cur[k])
          case Err(e) => Err(e)
          case Ok(o) => Ok(cur[k := o])
      else MergedItem(world, s, cur, item)
  }

  // ---------------------------------------------------------------------
  // Properties

  /** The `id` field: its position, when the class has one that holds a plain value. */
  predicate PlainId(world: seq<ModelClass>, t: string) {
    t in Names(world) && "id" in FieldNames(FieldsOf(world, t))
    && var f := FieldsOf(world, t)[FieldIndex(FieldsOf(world, t), "id")];
       !IsObjectType(world, Strip(f.ty)) && !IsListField(f.ty)
  }

  function IdIndex(world: seq<ModelClass>, t: string): (i: nat)
    requires PlainId(world, t)
    ensures i < |FieldsOf(world, t)| && FieldsOf(world, t)[i].name == "id"
  {
    FieldIndex(FieldsOf(world, t), "id")
  }

  /** The lookup never touches a field whose type is not a model type. */
  lemma LookedUpKeepsPlain(world: seq<ModelClass>, s: Session, v: Val, i: nat)
    requires v.ObjV? && Shaped(world, v.cls, v) && i < |v.vals|
    requires !IsObjectType(world, FieldsOf(world, v.cls)[i].ty)
    requires LookedUp(world, s, v).Ok?
    ensures var o := LookedUp(world, s, v).value;
            o.ObjV? && o.cls == v.cls && |o.vals| == |v.vals| && o.vals[i] == v.vals[i]
  {
    var rs := LookedUpFields(world, s, v);
    assert rs[i] == LookedUpField(world, s, FieldsOf(world, v.cls)[i], v.vals[i]) == Ok(v.vals[i]);
  }

  /**
   * The object `make_object` builds is of the requested class and carries the
   * id the input gave (None for an input without one): the id field is
   * copied, and the lookup replaces only values of model-typed fields.
   */
  lemma MadeKeepsId(world: seq<ModelClass>, s: Session, t: string, input: Val)
    requires PlainId(world, t) && Made(world, s, t, input).Ok?
    ensures var o := Made(world, s, t, input).value;
            o.ObjV? && o.cls == t && Shaped(world, t, o)
            && o.vals[IdIndex(world, t)] == input.vals[IdIndex(world, t)]
  {
    var i := IdIndex(world, t);
    var rs := MadeFields(world, s, t, input);
    var vals := Collect(rs).value;
    assert rs[i] == MadeField(world, s, FieldsOf(world, t)[i], input.vals[i]) == Ok(input.vals[i]);
    LookedUpKeepsPlain(world, s, ObjV(t, vals), i);
  }

  /**
   * `update_object` with a truthy id returns the object it was given: the
   * same class and the same id, whatever the input holds.
   */
  lemma UpdateKeepsIdentity(world: seq<ModelClass>, s: Session, input: Val, obj: Val)
    requires IdOf(world, input).Some? && Truthy(IdOf(world, input).value)
    requires Updated(world, s, input, obj).Ok?
    ensures var o := Updated(world, s, input, obj).value;
            o.ObjV? && obj.ObjV? && o.cls == obj.cls && |o.vals| == |obj.vals| && IdOf(world, o) == IdOf(world, obj)
  {
    var fs := FieldsOf(world, input.cls);
    var i := FieldIndex(fs, "id");
    var rs := UpdatedFields(world, s, input, obj);
    assert rs[i] == UpdatedField(world, s, fs[i], input.vals[i], obj.vals[i]) == Ok(obj.vals[i]);
  }

  /**
   * Only truthy input values other than `id` are applied: a falsy one (None,
   * 0, "", False, []) leaves the field as it was, and a truthy plain value
   * replaces it.
   */
  lemma UpdateAppliesTruthyOnly(world: seq<ModelClass>, s: Session, input: Val, obj: Val, i: nat)
    requires IdOf(world, input).Some? && Truthy(IdOf(world, input).value)
    requires Updated(world, s, input, obj).Ok? && i < |input.vals|
    ensures var o := Updated(world, s, input, obj).value; var f := FieldsOf(world, input.cls)[i];
            o.ObjV? && obj.ObjV? && i < |o.vals| && i < |obj.vals|
            && (f.name == "id" || !Truthy(input.vals[i]) ==> o.vals[i] == obj.vals[i])
            && (f.name != "id" && Truthy(input.vals[i]) && !input.vals[i].ObjV? && !IsListField(f.ty)
                ==> o.vals[i] == input.vals[i])
  {
    var fs := FieldsOf(world, input.cls);
    var rs := UpdatedFields(world, s, input, obj);
    assert rs[i] == UpdatedField(world, s, fs[i], input.vals[i], obj.vals[i]);
  }

  /** One more item of the merge is one more item step. */
  lemma MergedNext(world: seq<ModelClass>, s: Session, existing: seq<Val>, upd: Val, n: nat, cur: seq<Val>)
    requires upd.ListV? && n < |upd.items| && Merged(world, s, existing, upd, n) == Ok(cur)
    ensures Merged(world, s, existing, upd, n + 1) == MergedItem(world, s, cur, upd.items[n])
  {
  }

  /** An error stops the merge: the items after a failing one are never merged. */
  lemma {:induction false} MergedErrorSticks(world: seq<ModelClass>, s: Session, existing: seq<Val>, upd: Val, n: nat, m: nat)
    requires upd.ListV? && n <= m <= |upd.items| && Merged(world, s, existing, upd, n).Err?
    ensures Merged(world, s, existing, upd, m) == Merged(world, s, existing, upd, n)
    decreases m
  {
    if m > n {
      MergedErrorSticks(world, s, existing, upd, n, m - 1);
      var e := Merged(world, s, existing, upd, m - 1);
      assert e.Err?;
      assert Merged(world, s, existing, upd, m) == e;
    }
  }

  /** The number of items that have an id attribute whose value is falsy: the ones appended. */
  function NewItems(world: seq<ModelClass>, items: seq<Val>): nat {
    if items == [] then 0
    else NewItems(world, items[..|items| - 1])
         + var id := IdOf(world, items[|items| - 1]); if id.Some? && !Truthy(id.value) then 1 else 0
  }

  /**
   * `merge_lists` never removes or reorders an existing element: each keeps
   * its position and its id, and the list grows by exactly one element per
   * item without an id.
   */
  lemma {:induction false} MergeKeepsExisting(world: seq<ModelClass>, s: Session, existing: seq<Val>, upd: Val, n: nat)
    requires upd.ListV? && n <= |upd.items| && Merged(world, s, existing, upd, n).Ok?
    ensures var xs := Merged(world, s, existing, upd, n).value;
            |xs| == |existing| + NewItems(world, upd.items[..n])
            && forall k :: 0 <= k < |existing| ==> IdOf(world, xs[k]) == IdOf(world, existing[k])
  {
    if n > 0 {
      var prev := Merged(world, s, existing, upd, n - 1);
      assert prev.Ok?;
      MergeKeepsExisting(world, s, existing, upd, n - 1);
      var cur := prev.value;
      var item := upd.items[n - 1];
      MergedNext(world, s, existing, upd, n - 1, cur);
      var xs := MergedItem(world, s, cur, item).value;
      MergedItemKeepsExisting(world, s, cur, item);
      NewItemsStep(world, upd.items, n);
      KeepsIdsChain(world, existing, cur, xs);
    }
  }

  lemma KeepsIdsChain(world: seq<ModelClass>, a: seq<Val>, b: seq<Val>, c: seq<Val>)
    requires |a| <= |b| <= |c|
    requires forall k :: 0 <= k < |a| ==> IdOf(world, b[k]) == IdOf(world, a[k])
    requires forall k :: 0 <= k < |b| ==> IdOf(world, c[k]) == IdOf(world, b[k])
    ensures forall k :: 0 <= k < |a| ==> IdOf(world, c[k]) == IdOf(world, a[k])
  {
  }

  lemma NewItemsStep(world: seq<ModelClass>, items: seq<Val>, n: nat)
    requires 0 < n <= |items|
    ensures var id := IdOf(world, items[n - 1]);
            NewItems(world, items[..n]) == NewItems(world, items[..n - 1]) + if id.Some? && !Truthy(id.value) then 1 else 0
  {
    assert items[..n][..n - 1] == items[..n - 1];
  }

  /** One item of the merge keeps every element's position and id, and appends at most one. */
  lemma MergedItemKeepsExisting(world: seq<ModelClass>, s: Session, cur: seq<Val>, item: Val)
    requires MergedItem(world, s, cur, item).Ok?
    ensures var xs := MergedItem(world, s, cur, item).value;
            var id := IdOf(world, item);
            |xs| == |cur| + (if id.Some? && !Truthy(id.value) then 1 else 0)
            && forall k :: 0 <= k < |cur| ==> IdOf(world, xs[k]) == IdOf(world, cur[k])
  {
    var id := IdOf(world, item).value;
    if Truthy(id) {
      var k := FirstWithId(Ids(world, cur), id, 0).value.value;
      UpdateKeepsIdentity(world, s, item, cur[k]);
    }
  }

  /**
   * As written, an item whose id matches no element stops the merge with
   * StopIteration from `next()`; the `ValueError` branch after it is dead,
   * since a found element is an object and objects are truthy.  Everywhere
   * else the two item steps agree.
   */
  lemma MergeAsWrittenRaisesStopIteration(world: seq<ModelClass>, s: Session, cur: seq<Val>, item: Val)
    ensures var id := IdOf(world, item);
            if id.Some? && Truthy(id.value) && FirstWithId(Ids(world, cur), id.value, 0) == Ok(None) then
              MergedItemAsWritten(world, s, cur, item) == Err(StopIteration(id.value))
              && MergedItem(world, s, cur, item) == Err(ItemNotFound(id.value))
            else MergedItemAsWritten(world, s, cur, item) == MergedItem(world, s, cur, item)
  {
  }

  /** A Datafile update naming id 2 against a list holding only Datafile 1. */
  lemma MergeUnknownIdExample(s: Session)
    ensures var cur := [ObjV("Datafile", [IntV(1), StrV("raw"), NoneV])];
            var item := ObjV("Datafile", [IntV(2), NoneV, NoneV]);
            MergedItemAsWritten(SampleModel, s, cur, item) == Err(StopIteration(IntV(2)))
            && MergedItem(SampleModel, s, cur, item) == Err(ItemNotFound(IntV(2)))
  {
    var cur := [ObjV("Datafile", [IntV(1), StrV("raw"), NoneV])];
    var item := ObjV("Datafile", [IntV(2), NoneV, NoneV]);
    DatafileIdRead(cur[0]);
    DatafileIdRead(item);
    assert FirstWithId(Ids(SampleModel, cur), IntV(2), 1) == Ok(None);
  }

  /** A sample `Datafile` object's id is its first value. */
  lemma DatafileIdRead(v: Val)
    requires v.ObjV? && v.cls == "Datafile" && |v.vals| == 3
    ensures IdOf(SampleModel, v) == Some(v.vals[0])
  {
    assert Names(SampleModel) == ["Crs", "Datafile", "Dataset", "Supplier", "SupplierType"];
    assert FieldsOf(SampleModel, "Datafile") == Datafile.fields;
    assert FieldIndex(Datafile.fields, "id") == 0;
  }

  // ---------------------------------------------------------------------
  // The operations, field by field

  /** `make_object(type_, input_)`, the loop over the input's fields. */
  method MakeObject(world: seq<ModelClass>, s: Session, t: string, input: Val) returns (r: Result<Val, MaterializeError>)
    decreases input, 2
    ensures r == Made(world, s, t, input)
  {
    if !Shaped(world, t, input) {
      return Err(Malformed);
    }
    var fs := FieldsOf(world, t);
    ghost var rs := MadeFields(world, s, t, input);
    var vals: seq<Val> := [];
    var i := 0;
    while i < |fs|
      invariant 0 <= i <= |fs| && |vals| == i
      invariant forall k :: 0 <= k < i ==> rs[k] == Ok(vals[k])
    {
      var x := MakeField(world, s, fs[i], input.vals[i]);
      if x.Err? {
        CollectFirstError(rs, i);
        return Err(x.error);
      }
      vals := vals + [x.value];
      i := i + 1;
    }
    CollectAllOk(rs, vals);
    r := LookupItemsWithIds(world, s, ObjV(t, vals));
  }

  /** The value one field of `make_object` gives. */
  method MakeField(world: seq<ModelClass>, s: Session, f: Field, v: Val) returns (r: Result<Val, MaterializeError>)
    decreases v, 3
    ensures r == MadeField(world, s, f, v)
  {
    if v == NoneV {
      return Ok(if IsListField(f.ty) then ListV([]) else NoneV);
    }
    if IsObjectType(world, Strip(f.ty)) {
      if f.ty.Model? {
        r := MakeObject(world, s, f.ty.name, v);
      } else {
        r := Err(NotAClass(f.name));
      }
    } else if IsListField(f.ty) {
      if !v.ListV? {
        return Err(Malformed);
      }
      if v.items == [] {
        return Ok(ListV([]));
      }
      if !(f.ty.ListOf? && IsObjectType(world, f.ty.elem)) {
        return Err(NotAClass(f.name));
      }
      ghost var rs := MadeItems(world, s, f.ty.elem.name, v);
      var xs: seq<Val> := [];
      var k := 0;
      while k < |v.items|
        invariant 0 <= k <= |v.items| && |xs| == k
        invariant forall j :: 0 <= j < k ==> rs[j] == Ok(xs[j])
      {
        var x := MakeObject(world, s, f.ty.elem.name, v.items[k]);
        if x.Err? {
          CollectFirstError(rs, k);
          return Err(x.error);
        }
        xs := xs + [x.value];
        k := k + 1;
      }
      CollectAllOk(rs, xs);
      r := Ok(ListV(xs));
    } else {
      r := Ok(v);
    }
  }

  /** `__lookup_items_with_ids(obj, session)`, the loop over the object's fields. */
  method LookupItemsWithIds(world: seq<ModelClass>, s: Session, v: Val) returns (r: Result<Val, MaterializeError>)
    decreases v, 2
    ensures r == LookedUp(world, s, v)
  {
    if !v.ObjV? || !Shaped(world, v.cls, v) {
      return Err(Malformed);
    }
    var fs := FieldsOf(world, v.cls);
    ghost var rs := LookedUpFields(world, s, v);
    var vals: seq<Val> := [];
    var i := 0;
    while i < |fs|
      invariant 0 <= i <= |fs| && |vals| == i
      invariant forall k :: 0 <= k < i ==> rs[k] == Ok(vals[k])
    {
      var y := LookupField(world, s, fs[i], v.vals[i]);
      if y.Err? {
        CollectFirstError(rs, i);
        return Err(y.error);
      }
      vals := vals + [y.value];
      i := i + 1;
    }
    CollectAllOk(rs, vals);
    r := Ok(ObjV(v.cls, vals));
  }

  /** One field of `__lookup_items_with_ids`. */
  method LookupField(world: seq<ModelClass>, s: Session, f: Field, x: Val) returns (r: Result<Val, MaterializeError>)
    decreases x, 3
    ensures r == LookedUpField(world, s, f, x)
  {
    r := Ok(x);
    if IsObjectType(world, f.ty) && Truthy(x) {
      var id := IdOf(world, x);
      if id.None? {
        r := Err(Malformed);
      } else if id.value != NoneV {
        var key := RowKey(f.ty.name, id.value);
        if key in s && Truthy(s[key]) {
          r := Ok(s[key]);
        }
      } else {
        r := LookupItemsWithIds(world, s, x);
      }
    }
  }

  /** `update_object(input_, object_to_update)`, the loop over the truthy non-id fields. */
  method UpdateObject(world: seq<ModelClass>, s: Session, input: Val, obj: Val) returns (r: Result<Val, MaterializeError>)
    decreases input, 2, 0
    ensures r == Updated(world, s, input, obj)
  {
    var id := IdOf(world, input);
    if id.None? {
      return Err(Malformed);
    }
    if !Truthy(id.value) {
      r := MakeObject(world, s, input.cls, input);
      return;
    }
    if !Shaped(world, input.cls, input) || !Shaped(world, input.cls, obj) || obj.cls != input.cls {
      return Err(Malformed);
    }
    var fs := FieldsOf(world, input.cls);
    ghost var rs := UpdatedFields(world, s, input, obj);
    var vals := obj.vals;
    var i := 0;
    while i < |fs|
      invariant 0 <= i <= |fs| && |vals| == |fs|
      invariant forall k :: 0 <= k < i ==> rs[k] == Ok(vals[k])
      invariant forall k :: i <= k < |fs| ==> vals[k] == obj.vals[k]
    {
      var y := UpdateField(world, s, fs[i], input.vals[i], vals[i]);
      if y.Err? {
        CollectFirstError(rs, i);
        return Err(y.error);
      }
      vals := vals[i := y.value];
      i := i + 1;
    }
    CollectAllOk(rs, vals);
    r := Ok(ObjV(obj.cls, vals));
  }

  /** One field of `update_object`: skipped, updated, merged or assigned. */
  method UpdateField(world: seq<ModelClass>, s: Session, f: Field, iv: Val, ov: Val) returns (r: Result<Val, MaterializeError>)
    decreases iv, 3, 0
    ensures r == UpdatedField(world, s, f, iv, ov)
  {
    if f.name == "id" || !Truthy(iv) {
      r := Ok(ov);
    } else if iv.ObjV? {
      r := UpdateObject(world, s, iv, ov);
    } else if IsListField(f.ty) {
      if !ov.ListV? || !iv.ListV? {
        r := Err(Malformed);
      } else {
        var m := MergeLists(world, s, ov.items, iv);
        r := if m.Err? then Err(m.error) else Ok(ListV(m.value));
      }
    } else {
      r := Ok(iv);
    }
  }

  /** `merge_lists(existing, update)`: the loop over the update's items. */
  method MergeLists(world: seq<ModelClass>, s: Session, existing: seq<Val>, upd: Val) returns (r: Result<seq<Val>, MaterializeError>)
    requires upd.ListV?
    decreases upd, 2, |upd.items| + 2
    ensures r == Merged(world, s, existing, upd, |upd.items|)
  {
    var items := upd.items;
    var cur := existing;
    var n := 0;
    while n < |items|
      invariant n <= |items|
      invariant Merged(world, s, existing, upd, n) == Ok(cur)
    {
      r := MergeStep(world, s, existing, upd, n, cur);
      if r.Err? {
        return;
      }
      cur := r.value;
      n := n + 1;
    }
    r := Ok(cur);
  }

  /** The body of the loop of `merge_lists`, on item `n`. */
  method MergeStep(world: seq<ModelClass>, s: Session, existing: seq<Val>, upd: Val, n: nat, cur: seq<Val>)
    returns (r: Result<seq<Val>, MaterializeError>)
    requires upd.ListV? && n < |upd.items| && Merged(world, s, existing, upd, n) == Ok(cur)
    decreases upd, 2, |upd.items| + 1
    ensures r == Merged(world, s, existing, upd, n + 1)
    ensures r.Err? ==> r == Merged(world, s, existing, upd, |upd.items|)
  {
    MergedNext(world, s, existing, upd, n, cur);
    r := MergeItem(world, s, cur, upd.items[n]);
    if r.Err? {
      MergedErrorSticks(world, s, existing, upd, n + 1, |upd.items|);
    }
  }

  /** One item of `merge_lists`. */
  method MergeItem(world: seq<ModelClass>, s: Session, cur: seq<Val>, item: Val) returns (r: Result<seq<Val>, MaterializeError>)
    decreases item, 3, 0
    ensures r == MergedItem(world, s, cur, item)
  {
    var id := IdOf(world, item);
    if id.None? {
      return Err(Malformed);
    }
    if Truthy(id.value) {
      ghost var ids := Ids(world, cur);
      var k := 0;
      while k < |cur|
        invariant k <= |cur|
        invariant FirstWithId(ids, id.value, 0) == FirstWithId(ids, id.value, k)
      {
        var x := IdOf(world, cur[k]);
        assert x == ids[k];
        if x.None? {
          return Err(Malformed);
        }
        if x.value == id.value {
          break;
        }
        k := k + 1;
      }
      if k == |cur| {
        return Err(ItemNotFound(id.value));
      }
      var o := UpdateObject(world, s, item, cur[k]);
      if o.Err? {
        return Err(o.error);
      }
      r := Ok(cur[k := o.value]);
    } else {
      var o := MakeObject(world, s, item.cls, item);
      if o.Err? {
        return Err(o.error);
      }
      var o2 := LookupItemsWithIds(world, s, o.value);
      if o2.Err? {
        return Err(o2.error);
      }
      r := Ok(cur + [o2.value]);
    }
  }
}
