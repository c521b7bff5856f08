/**
 * Descriptors standing in for the Python classes and type hints that the
 * generator inspects by reflection.  A class is identified by its name.
 */
module ModelTypes {
  import opened Wrappers

  /** The builtin and standard-library scalar classes that type hints name. */
  datatype ScalarKind =
    | Int | Float | Str | Bool | DateTime | Date | Time
    | Bytes | TimeDelta | BareList | BareDict

  /**
   * A field's declared type.  `Model(n)` is the declared model class named `n`,
   * `ListOf` and `Opt` are `List[...]` and `Optional[...]`, `Generated(n)` is a
   * class produced by the generator itself (the derived input types), and
   * `Other(n)` is any hint that is not a class at all (a literal, a forward
   * reference that was never resolved, ...).
   */
  datatype Ty =
    | Scalar(kind: ScalarKind)
    | Model(name: string)
    | ListOf(elem: Ty)
    | Opt(inner: Ty)
    | Generated(name: string)
    | Other(name: string)

  /** A declared field; `defaultNone` records a default value of `None`. */
  datatype Field = Field(name: string, ty: Ty, defaultNone: bool)

  /** A model class: its name, its fields in declaration order and the `Lookup()` directive. */
  datatype ModelClass = ModelClass(name: string, fields: seq<Field>, lookup: bool)

  /** The SQL column types the scalar classes map to. */
  datatype SqlType =
    | IntegerCol | FloatCol | StringCol | BooleanCol | DateTimeCol | DateCol | TimeCol
    | LargeBinaryCol | IntervalCol | ArrayCol | JsonCol

  /** The `MAPPED_TYPES` dictionary: seven scalar classes and their column types. */
  function MappedType(k: ScalarKind): (r: Option<SqlType>)
    ensures r.Some? <==> k in {Int, Float, Str, Bool, DateTime, Date, Time}
  {
    match k
    case Int => Some(IntegerCol)
    case Float => Some(FloatCol)
    case Str => Some(StringCol)
    case Bool => Some(BooleanCol)
    case DateTime => Some(DateTimeCol)
    case Date => Some(DateCol)
    case Time => Some(TimeCol)
    case _ => None
  }

  /** `t in MAPPED_TYPES.keys()` */
  predicate IsMapped(t: Ty) {
    t.Scalar? && MappedType(t.kind).Some?
  }

  const IntType: Ty := Scalar(Int)

  function Names(cs: seq<ModelClass>): (r: seq<string>)
    ensures |r| == |cs|
    ensures forall i :: 0 <= i < |cs| ==> r[i] == cs[i].name
  {
    if cs == [] then [] else [cs[0].name] + Names(cs[1..])
  }

  /** `t in model_classes`: `t` is one of the listed model classes. */
  predicate IsListedModel(cs: seq<ModelClass>, t: Ty) {
    t.Model? && t.name in Names(cs)
  }

  /** The first listed class with the given name. */
  function ClassNamed(cs: seq<ModelClass>, n: string): (c: ModelClass)
    requires n in Names(cs)
    ensures c in cs && c.name == n
  {
    if cs[0].name == n then cs[0] else ClassNamed(cs[1..], n)
  }

  /** Whether the class a hint names carries the `Lookup()` directive. */
  predicate CarriesLookup(cs: seq<ModelClass>, n: string)
    requires n in Names(cs)
  {
    ClassNamed(cs, n).lookup
  }

  /** Field names of a class. */
  function FieldNames(fs: seq<Field>): (r: seq<string>)
    ensures |r| == |fs|
    ensures forall i :: 0 <= i < |fs| ==> r[i] == fs[i].name
  {
    if fs == [] then [] else [fs[0].name] + FieldNames(fs[1..])
  }

  /** Position of the first field with the given name. */
  function FieldIndex(fs: seq<Field>, n: string): (i: nat)
    requires n in FieldNames(fs)
    ensures i < |fs| && fs[i].name == n
    ensures forall j :: 0 <= j < i ==> fs[j].name != n
  {
    if fs[0].name == n then 0 else 1 + FieldIndex(fs[1..], n)
  }

  /** ASCII letters; the models of the source's string handling are restricted to ASCII. */
  predicate IsUpper(c: char) { 'A' <= c <= 'Z' }

  function ToLower(c: char): (r: char)
    ensures !IsUpper(r)
    ensures IsUpper(c) ==> r == c - 'A' + 'a'
    ensures !IsUpper(c) ==> r == c
  {
    if IsUpper(c) then (c as int - 'A' as int + 'a' as int) as char else c
  }

  /** `str.lower()` on ASCII text. */
  function Lower(s: string): (r: string)
    ensures |r| == |s|
    ensures forall i :: 0 <= i < |s| ==> r[i] == ToLower(s[i])
  {
    seq(|s|, i requires 0 <= i < |s| => ToLower(s[i]))
  }
}
