/**
 * The sample and test model classes of the repository, as descriptors; the
 * concrete lemmas of the other modules are stated over these.
 */
module Fixtures {
  import opened ModelTypes

  function F(name: string, ty: Ty): Field {
    Field(name, ty, false)
  }

  const IdField: Field := F("id", IntType)
  const NameField: Field := F("name", Scalar(Str))

  // strawchemy/sample_model and tests/model

  const SupplierType: ModelClass := ModelClass("SupplierType", [IdField, NameField], true)

  const Supplier: ModelClass := ModelClass("Supplier", [
    IdField, NameField, F("address", Scalar(Str)), F("main_contact", Scalar(Str)),
    F("main_phone_number", Opt(Scalar(Str))), F("supplier_type", Model("SupplierType"))], true)

  const Crs: ModelClass := ModelClass("Crs", [IdField, NameField], true)

  const Datafile: ModelClass := ModelClass("Datafile", [
    IdField, NameField, F("produced_by", Model("Supplier"))], false)

  const Dataset: ModelClass := ModelClass("Dataset", [
    IdField, NameField, F("datafiles", ListOf(Model("Datafile"))),
    F("last_datafile", Opt(Model("Datafile"))), F("crs", Model("Crs"))], false)

  /** The five sample classes, as a service would list them. */
  const SampleModel: seq<ModelClass> := [Crs, Datafile, Dataset, Supplier, SupplierType]

  // tests/model/dataset.py: the classes the validation tests reject

  const SimpleDataset: ModelClass := ModelClass("SimpleDataset", [
    IdField, NameField, F("datafiles", ListOf(Model("Datafile")))], false)

  const OptionalDataset: ModelClass := ModelClass("OptionalDataset", [
    IdField, NameField, F("last_datafile", Opt(Model("Datafile")))], false)

  const NoIdDataset: ModelClass := ModelClass("NoIdDataset", [NameField], false)

  const NotIntIdDataset: ModelClass := ModelClass("NotIntIdDataset", [
    F("id", Scalar(Float)), NameField], false)

  const ListOptionalDataset: ModelClass := ModelClass("ListOptionalDataset", [
    IdField, NameField, F("last_datafile", ListOf(Opt(Model("Datafile"))))], false)

  const OptionalListDataset: ModelClass := ModelClass("OptionalListDataset", [
    IdField, NameField, F("last_datafile", Opt(ListOf(Model("Datafile"))))], false)

  // tests/test_models.py: the classes the schema tests collect

  const SimpleModel: ModelClass := ModelClass("SimpleModel", [
    IdField, F("root_value_1", IntType), F("wibble", Scalar(Str))], false)

  const NestedModelA1: ModelClass := ModelClass("NestedModelA1", [
    IdField, F("blah", ListOf(Scalar(Str))), F("loop", ListOf(Model("NestedModel")))], false)

  const NestedModelA: ModelClass := ModelClass("NestedModelA", [IdField, F("nest", Model("NestedModelA1"))], false)

  const NestedModel: ModelClass := ModelClass("NestedModel", [IdField, F("nest", ListOf(Model("NestedModelA")))], false)

  const TestModels: seq<ModelClass> := [SimpleModel, NestedModelA1, NestedModelA, NestedModel]
}
