# strawchemy, modelled in Dafny

strawchemy generates a GraphQL API (strawberry) and a relational mapping
(SQLAlchemy) from declared model classes, by reflection on their type hints.
Under the library calls sits a small amount of deterministic logic, and this
project models it:

- the **model validator**, in two versions:
  - the current one over strawberry types with `Optional` and `List` wrappers;
  - the older one over dataclasses, together with `ensure_nullable_ids`;
- the **relational mapper** (`create_sqlalchemy_types`), in three versions:
  - the current module;
  - the older module;
  - the older manager's `<Name>Db` variant.

  The mapper is a builder object whose table names, attributes (columns,
  foreign keys, relationships, each with its `Mapped[...]` annotation) and
  registered classes are updated in loops, child classes included.
- the **Create/Update input-type derivation**, memoised recursion over a
  possibly cyclic type graph;
- the **object materialiser** (`make_object`, `__lookup_items_with_ids`,
  `update_object`, `merge_lists`), over an abstract session that maps
  (class, id) to a row;
- the current **manager's `schema` property**:
  - query resolvers bound by naming convention;
  - input types derived for every mutation type, with the mutation resolvers
    bound;
  - validate-then-map of the collected model types;
  - the create, update and delete resolvers over the session;
- `snake_it`, in its two regular-expression versions;
- `expand_selected_fields`;
- the older `StrawchemySchema`:
  - its argument checks;
  - the transitive collection of nested model types;
  - the tables wired from type hints;
  - the generated Query, input and Mutation classes;
- the older manager:
  - its validation;
  - its Strawberry object and input classes;
  - its `Db` classes;
  - its four operations per model.

A Python type is a descriptor:

```
Ty = Scalar(kind) | Model(name) | ListOf(Ty) | Opt(Ty) | Generated(name) | Other(name)
```

A model class is a name, its fields in declaration order, and a flag that
stands for the `Lookup()` directive. Classes are identified by name.
`MAPPED_TYPES` is `ModelTypes.MappedType`. The sample and test model classes
of the repository are constants in `fixtures.dfy`, and the concrete lemmas
are stated over them.

Files:

| file | what it holds |
|---|---|
| `wrappers.dfy` | Option, Result, Outcome |
| `model_types.dfy` | descriptors |
| `fixtures.dfy` | sample and test classes |
| `snake_case.dfy` | `snake_it` |
| `selection_paths.dfy` | `expand_selected_fields` |
| `model_validation.dfy` | both validators and `ensure_nullable_ids` |
| `relational_mapping.dfy` | the current mapper and the per-field writes of every version |
| `legacy_mapping.dfy` | the older mappers |
| `maps.dfy` | map lemmas |
| `input_types.dfy` | Create/Update derivation |
| `materializer.dfy` | materialiser |
| `manager.dfy` | current manager |
| `legacy_schema.dfy` | older `StrawchemySchema` |
| `legacy_manager.dfy` | older manager |

Every test of the older `StrawchemySchema` omits the mutable set, and as written the constructor then fails at schema.py:44 before it does anything else (the first row under Findings). `LegacySchema.SchemaOfAsWritten` is the constructor with its mutable check as written; it still collects the model types with the corrected visited test (the second row under Findings), so on a class that reaches itself through a `List` hint it returns where the code as written recurses without end. `LegacySchema.SchemaOf` and the lemmas about it use both corrections; the lemmas about the tests state both outcomes of the mutable check.

The current manager is modelled likewise with its two corrections (the last two rows under Findings): the query binding rejects a list-typed by-id field, and each delete resolver loads its own field's type. `Manager.StrawchemyManager.Schema` also states how each differs from the code as written.

Beyond that, the tests and the code disagree in two places:

- `tests/test_strawchemy_schema.py:34-37` expects `StrawchemySchema(queriable_types=[NestedModel, 1, 2])` to succeed. As written it fails at schema.py:44 for want of a mutable set. With the mutable check corrected, the code builds `GetAll{_type.__name__}` for every queriable value (schema.py:82-83), and `1` has no `__name__`. `LegacySchema.NonClassQueriableRejected` states both failures.
- The tests expect the message "at least one model type"; the code says "at least one class type". The model records only which error is raised.

`tests/test_model_validation.py` matches the current validator (AttributeError and its messages). The older validator raises ValueError, and the model keeps one error datatype for both.

## Model

| member | source | states |
|---|---|---|
| `ModelTypes.MappedType` | strawchemy/mapped_types.py:8-16 | a column type exists exactly for int, float, str, bool, datetime, date and time |
| `SnakeCase.SnakeIt` | strawchemy/utils.py:4-5 | the result contains no upper-case ASCII letter |
| `SnakeCase.SnakeItLegacy` | strawberrysqlalchemy/strawchemy/utils.py:11-12 | the result contains no upper-case ASCII letter |
| `SnakeCase.SnakeItOnlyInserts` | strawchemy/utils.py:5 | with every `_` removed, the result is the lower-cased input with every `_` removed; it is longer than the input by exactly the number of inserted underscores |
| `SnakeCase.SnakeItWithoutUpper` | strawchemy/utils.py:5 | a string without upper-case letters, the empty one included, is returned unchanged |
| `SnakeCase.SnakeItIdempotent` | strawchemy/utils.py:5 | `snake_it(snake_it(s)) == snake_it(s)` for every `s` |
| `SnakeCase.SnakeItLegacyWithoutUpper` | strawberrysqlalchemy/strawchemy/utils.py:12 | the older version leaves a string without upper-case letters unchanged |
| `SnakeCase.SnakeItLegacyIdempotent` | strawberrysqlalchemy/strawchemy/utils.py:12 | the older version is idempotent |
| `SnakeCase.SnakeItVersionsAgree` | strawberrysqlalchemy/strawchemy/utils.py:12 | the two versions agree on every input in which no upper-case letter directly follows `_` |
| `SnakeCase.SnakeItVersionsDiffer` | strawberrysqlalchemy/strawchemy/utils.py:12 | on "A_B" the older version gives "a__b" and the current one "a_b" |
| `SnakeCase.SnakeItCamelCase` | strawchemy/utils.py:5 | a CamelCase name made of capitalised words becomes those words lower-cased and joined by `_` |
| `SnakeCase.SnakeItCapitalisedWord` | strawchemy/utils.py:5 | a single capitalised word is only lower-cased |
| `SnakeCase.SnakeItLegacyCapitalisedWord` | strawberrysqlalchemy/strawchemy/utils.py:12 | the older version only lower-cases a single capitalised word |
| `SnakeCase.SnakeItUnchangedCases` | tests/test_utils.py:10-14 | "" and "already_snaked_unaffected" are unchanged |
| `SnakeCase.SnakeItCamelCases` | tests/test_utils.py:11-13 | "Word", "ThreeWordValue" and "EndsWithCaP" give "word", "three_word_value" and "ends_with_ca_p" |
| `SnakeCase.SnakeItOneWord` | tests/test_utils.py:11 | "Word" gives "word" |
| `SnakeCase.SnakeItThreeWords` | tests/test_utils.py:12 | "ThreeWordValue" gives "three_word_value" |
| `SnakeCase.SnakeItEndsWithCapital` | tests/test_utils.py:13 | "EndsWithCaP" gives "ends_with_ca_p" |
| `SnakeCase.SnakeItCapitalisedSnaked` | tests/test_utils.py:15 | "Capitalised_Snaked_Lowered" gives "capitalised_snaked_lowered": no second underscore after `_` |
| `SelectionPaths.PathCountIsLeafCount` | strawberrysqlalchemy/strawberry_services/helpers.py:7-23 | the number of paths equals the number of selected fields without sub-selections anywhere in the tree |
| `SelectionPaths.LeafAndNestedCount` | strawberrysqlalchemy/strawberry_services/helpers.py:8-22 | the leaf paths of a level and the paths of its subtrees together number the leaves of that level's forest |
| `SelectionPaths.PathsStartWithPrefix` | strawberrysqlalchemy/strawberry_services/helpers.py:7-23 | every path begins with the prefix |
| `SelectionPaths.NestedSelectionPaths` | strawberrysqlalchemy/strawberry_services/helpers.py:14-22 | a selection with sub-selections yields no path of its own, only its descendants' paths under `prefix + segment + "/"` |
| `SelectionPaths.LeafSelectionPath` | strawberrysqlalchemy/strawberry_services/helpers.py:9-13 | a selected field without sub-selections yields exactly `prefix + name` |
| `SelectionPaths.OtherSelectionPaths` | strawberrysqlalchemy/strawberry_services/helpers.py:18 | a non-field selection with nothing under it yields nothing; one without `name` and `type_condition` uses "?" as its segment |
| `SelectionPaths.ExpandExample` | strawberrysqlalchemy/strawberry_services/helpers.py:7-23 | a query selecting `datasets { id datafiles { name } }` gives "/datasets/id" then "/datasets/datafiles/name" |
| `ModelValidation.CheckField` | strawchemy/model_validation.py:17-41 | a field passes exactly when its type is a mapped scalar or listed class, `Optional` of one, or `List` of a listed class; a wrapper of a wrapper is a nesting error; a list of an unlisted element is a list error; errors name the type |
| `ModelValidation.CheckClass` | strawchemy/model_validation.py:12-41 | a class without `("id", int)` fails with the missing-id error before any field is checked; every error names the class |
| `ModelValidation.CheckFieldsPass` | strawchemy/model_validation.py:17-41 | a class's fields pass exactly when every field has an accepted shape |
| `ModelValidation.CheckFields` | strawchemy/model_validation.py:17-41 | a field error names the class being checked and is never the missing-id error |
| `ModelValidation.CheckFieldsFirst` | strawchemy/model_validation.py:17-41 | the error of a class's fields is that of the first offending field, the fields before it being well formed |
| `ModelValidation.CheckFieldsAt` | strawchemy/model_validation.py:17-41 | when the fields before field `k` pass and field `k` fails, its error is the one reported |
| `ModelValidation.CheckClassesPass` | strawchemy/model_validation.py:12-41 | the classes pass exactly when each has `id: int` and every field an accepted shape |
| `ModelValidation.CheckClassesFirst` | strawchemy/model_validation.py:12-41 | a rejection is the error of the first failing class, all earlier ones passing |
| `ModelValidation.CheckClasses` | strawchemy/model_validation.py:12-41 | an error names one of the classes checked |
| `ModelValidation.ValidateModelClasses` | strawchemy/model_validation.py:9-41 | an error names one of the listed classes |
| `ModelValidation.ValidationPassesIffValid` | strawchemy/model_validation.py:9-41 | validation passes if and only if every class has `id: int` and every field an accepted shape |
| `ModelValidation.FirstErrorReported` | strawchemy/model_validation.py:12-41 | fail-fast: the error belongs to the first offending class in list order; it is the missing-id error when that class lacks `id: int`, and otherwise the error of one of its fields |
| `ModelValidation.ValidatedModelIsClosed` | strawchemy/model_validation.py:25-41 | after validation passes, every class a field names (bare, under `Optional`, or as a list element) is one of the listed classes |
| `ModelValidation.ValidModelsPass` | tests/test_model_validation.py:20-21 | `[Supplier, SupplierType]` and the five sample classes pass |
| `ModelValidation.SupplierPairValid` | tests/test_model_validation.py:20-21 | `[Supplier, SupplierType]` is a valid model |
| `ModelValidation.SampleModelValid` | strawchemy/sample_model/dataset.py:9-15 | the sample model (Crs, Datafile, Dataset, Supplier, SupplierType) is valid |
| `ModelValidation.SampleClassesValid` | strawchemy/sample_model/dataset.py:9-15 | each sample class is valid in any list that holds the classes it names |
| `ModelValidation.MissingIdRejected` | tests/test_model_validation.py:26-27 | a class without `id`, or with a `float` id, fails with the missing-id error naming it |
| `ModelValidation.UnlistedChildRejected` | tests/test_model_validation.py:28-33 | an unlisted referenced class is rejected with the bare, list or optional error, naming the field and the class |
| `ModelValidation.NestedWrappersRejected` | tests/test_model_validation.py:34-39 | `List[Optional[...]]` and `Optional[List[...]]` are rejected as nested wrappers |
| `ModelValidation.CheckFieldLegacy` | strawberrysqlalchemy/strawchemy/model_validation.py:12-21 | an older-version field passes exactly when it is a list of a listed class or a mapped scalar or listed class; every `Optional` field is rejected |
| `ModelValidation.CheckFieldsLegacyPass` | strawberrysqlalchemy/strawchemy/model_validation.py:12-21 | a dataclass's fields pass exactly when every field has a legacy-accepted shape |
| `ModelValidation.CheckFieldsLegacy` | strawberrysqlalchemy/strawchemy/model_validation.py:12-21 | a field error names the dataclass being checked and is never the missing-id error |
| `ModelValidation.CheckClassesLegacy` | strawberrysqlalchemy/strawchemy/model_validation.py:8-21 | an error names one of the dataclasses checked |
| `ModelValidation.ValidateModelClassesLegacy` | strawberrysqlalchemy/strawchemy/model_validation.py:7-21 | an error names one of the listed dataclasses |
| `ModelValidation.CheckClassesLegacyPass` | strawberrysqlalchemy/strawchemy/model_validation.py:8-21 | the dataclasses pass exactly when each has `id: int` and every field a legacy-accepted shape |
| `ModelValidation.LegacyValidationPassesIffValid` | strawberrysqlalchemy/strawchemy/model_validation.py:7-21 | the older validation passes if and only if the model is legacy-valid |
| `ModelValidation.LegacyFieldsStricter` | strawberrysqlalchemy/strawchemy/model_validation.py:13-21 | fields the older check accepts are accepted by the current one and are never `Optional` |
| `ModelValidation.LegacyClassesStricter` | strawberrysqlalchemy/strawchemy/model_validation.py:8-21 | classes the older check accepts are accepted by the current one and have no `Optional` field |
| `ModelValidation.LegacyValidationStricter` | strawberrysqlalchemy/strawchemy/model_validation.py:7-21 | whatever the older validator accepts the current one accepts, and it accepts no `Optional` field |
| `ModelValidation.NullableId` | strawberrysqlalchemy/strawchemy/model_validation.py:26-30 | making the id nullable keeps the class's name, Lookup flag, field count and field names |
| `ModelValidation.NullableIdIdempotent` | strawberrysqlalchemy/strawchemy/model_validation.py:28-30 | making the id nullable a second time changes nothing |
| `ModelValidation.NullableIdTouchesOnlyId` | strawberrysqlalchemy/strawchemy/model_validation.py:26-30 | the `id` field becomes `Optional[int]`, with default None when it was changed; every other field is untouched |
| `ModelValidation.NullableIds` | strawberrysqlalchemy/strawchemy/model_validation.py:25-30 | every class of the list, in order, with its id made nullable |
| `ModelValidation.Dataclasses.constructor` | strawberrysqlalchemy/strawchemy/model_validation.py:24 | holds the given dataclasses |
| `ModelValidation.Dataclasses.EnsureNullableIds` | strawberrysqlalchemy/strawchemy/model_validation.py:24-30 | passes exactly when every type has an `id` field, and then every id is made nullable; otherwise the first type without one is named, and the types before it have already been rewritten |
| `RelationalMapping.StripField` | strawchemy/sqlalchemy_mapper.py:23-25 | an `Optional` field's type loses its wrapper; the name, the default and any other field are unchanged |
| `RelationalMapping.StripFields` | strawchemy/sqlalchemy_mapper.py:20-25 | each field of a class stripped, in order |
| `RelationalMapping.StripAll` | strawchemy/sqlalchemy_mapper.py:17-25 | each class of the list with its fields stripped, in order |
| `RelationalMapping.StripAllAt` | strawchemy/sqlalchemy_mapper.py:20-25 | field `j` of class `i` after the mapping is the declared field stripped |
| `RelationalMapping.StrippedModelHasNoOptional` | strawchemy/sqlalchemy_mapper.py:21-25 | after mapping a validated list no field is `Optional`; class names, Lookup flags, field counts and field names are unchanged |
| `RelationalMapping.CurrentWrites` | strawchemy/sqlalchemy_mapper.py:27-89 | one field attaches one or two attributes, the last always under the field's own name |
| `RelationalMapping.LegacyWrites` | strawberrysqlalchemy/strawchemy/sqlalchemy_mapper.py:19-58 | one field of the older mapper attaches one or two attributes, the last under the field's own name |
| `RelationalMapping.IdFieldMapping` | strawchemy/sqlalchemy_mapper.py:27-29 | the `id` field becomes the primary-key column annotated `int` |
| `RelationalMapping.ReferenceFieldMapping` | strawchemy/sqlalchemy_mapper.py:30-55 | a reference `f` to `T` adds the column `f_id`, whose foreign key targets `snake_it(T).id`; `ondelete` is None exactly when `T` carries Lookup and "CASCADE" otherwise; the column and the relationship through it are `Optional` exactly when the field was |
| `RelationalMapping.ListFieldMapping` | strawchemy/sqlalchemy_mapper.py:57-82 | a list of `C` on `P` adds to `C` the column `snake_it(P)_id` with a foreign key to `P`'s table; the relationship's cascade is None exactly when `C` carries Lookup and "all, delete" otherwise; `ondelete` is "CASCADE" exactly when the cascade is set |
| `RelationalMapping.ScalarFieldMapping` | strawchemy/sqlalchemy_mapper.py:83-89 | a scalar field becomes a column of its `MAPPED_TYPES` type, nullable exactly when it was `Optional` |
| `RelationalMapping.MappingAttachesEveryField` | strawchemy/sqlalchemy_mapper.py:17-89 | after the mapping every field of every class is an attribute of its class; a reference also has its `_id` column, and a list puts its back-reference column on the child |
| `RelationalMapping.FieldWritesClosed` | strawchemy/sqlalchemy_mapper.py:30-82 | every attribute a field attaches belongs to a listed class, and every foreign key or relationship it attaches targets a listed class |
| `RelationalMapping.MappingIsClosed` | strawchemy/sqlalchemy_mapper.py:17-89 | mapping a validated list gives a referentially closed schema: every foreign key targets a listed table, every relationship a listed class |
| `RelationalMapping.Tables` | strawchemy/sqlalchemy_mapper.py:18 | the table name of every listed class is among the tables |
| `RelationalMapping.TableNames` | strawchemy/sqlalchemy_mapper.py:17-18 | `__tablename__` is recorded for exactly the listed classes and is `snake_it` of the class name |
| `RelationalMapping.SampleCrsMapping` | strawchemy/sqlalchemy_mapper.py:34-46 | `Dataset.crs` gets `crs_id` with a foreign key to `crs` and no `ondelete`, since `Crs` is a lookup type |
| `RelationalMapping.SampleLastDatafileMapping` | strawchemy/sqlalchemy_mapper.py:34-48 | `Dataset.last_datafile: Optional[Datafile]` gets a nullable `last_datafile_id` that cascades |
| `RelationalMapping.SampleDatafilesMapping` | strawchemy/sqlalchemy_mapper.py:60-79 | `Dataset.datafiles: List[Datafile]` puts `dataset_id` on `Datafile`, deleting in cascade, and the relationship cascades "all, delete" |
| `RelationalMapping.Mapper.constructor` | strawchemy/sqlalchemy_mapper.py:16 | a mapper over the given classes with no table name, attribute or registration yet |
| `RelationalMapping.Mapper.CreateSqlalchemyTypes` | strawchemy/sqlalchemy_mapper.py:16-92 | the classes end with their `Optional` wrappers stripped; table names are those of the list; the attributes are the writes of every field of every class in order; the classes are registered after all are mapped |
| `RelationalMapping.Mapper.RegisterAll` | strawchemy/sqlalchemy_mapper.py:91-92 | registers every class in list order and changes nothing else |
| `RelationalMapping.Mapper.MapClass` | strawchemy/sqlalchemy_mapper.py:17-89 | class `i` gets its table name, its fields stripped and the writes of its fields; nothing is registered |
| `RelationalMapping.Mapper.MapFields` | strawchemy/sqlalchemy_mapper.py:20-89 | the fields of class `i` are stripped and their writes applied in declaration order |
| `RelationalMapping.Mapper.MapField` | strawchemy/sqlalchemy_mapper.py:20-89 | field `j` is stripped in place, then its writes are applied |
| `RelationalMapping.Mapper.AttachField` | strawchemy/sqlalchemy_mapper.py:27-89 | the attributes are updated by exactly the writes of the field |
| `LegacyMapping.LegacyReferenceFieldMapping` | strawberrysqlalchemy/strawchemy/sqlalchemy_mapper.py:22-35 | a reference to `T` adds `snake_it(T)_id`, named after the target type and typed `Optional[int]`, with a foreign key to `snake_it(T).id` and no `ondelete`; the relationship names no column and is `lazy="joined"` in the module version only |
| `LegacyMapping.LegacyListFieldMapping` | strawberrysqlalchemy/strawchemy/sqlalchemy_mapper.py:37-52 | a list of `C` on `P` adds to `C` the column `snake_it(P)_id`, typed `Optional[int]`, with a foreign key to `P`'s table; the relationship on `P` has no cascade |
| `LegacyMapping.LegacyScalarFieldMapping` | strawberrysqlalchemy/strawchemy/sqlalchemy_mapper.py:53-58 | a scalar field becomes one column of its `MAPPED_TYPES` type |
| `LegacyMapping.LegacyReferencesShareColumn` | strawberrysqlalchemy/strawchemy/sqlalchemy_mapper.py:22-35 | two references to the same class write their foreign-key column under one name: only the second column survives, and neither relationship names its column |
| `LegacyMapping.CurrentReferencesSeparateColumns` | strawchemy/sqlalchemy_mapper.py:30-55 | the current mapper names each reference's column after its field, so two references never share one, and each relationship names its own column |
| `LegacyMapping.LegacyTransferExample` | strawberrysqlalchemy/strawchemy/sqlalchemy_mapper.py:24-29 | `Transfer(source: Account, target: Account)` writes both columns as `account_id` |
| `LegacyMapping.LegacyTableNames` | strawberrysqlalchemy/strawchemy/sqlalchemy_mapper.py:15-16 | `__tablename__` is recorded for exactly the listed classes and is the older `snake_it` of the name |
| `LegacyMapping.LegacyMapper.constructor` | strawberrysqlalchemy/strawchemy/sqlalchemy_mapper.py:14 | a mapper with no table name, attribute or registration yet |
| `LegacyMapping.LegacyMapper.CreateSqlalchemyTypes` | strawberrysqlalchemy/strawchemy/sqlalchemy_mapper.py:14-62 | table names of the list; the attributes are the older writes of every field in order; every class is registered after all are mapped |
| `LegacyMapping.LegacyMapper.MapModelClasses` | strawberrysqlalchemy/strawchemy/sqlalchemy_mapper.py:15-58 | the first loop: table names and the writes of every class, nothing registered |
| `LegacyMapping.LegacyMapper.Register` | strawberrysqlalchemy/strawchemy/sqlalchemy_mapper.py:60-62 | registers the classes (or their `Db` classes) in order and changes nothing else |
| `LegacyMapping.LegacyMapper.MapClass` | strawberrysqlalchemy/strawchemy/sqlalchemy_mapper.py:18-58 | the writes of one class's fields in declaration order, nothing else changed |
| `LegacyMapping.LegacyMapper.AttachField` | strawberrysqlalchemy/strawchemy/sqlalchemy_mapper.py:19-58 | the attributes are updated by exactly the older writes of the field |
| `LegacyMapping.LegacyMapper.CreateDbTypes` | strawberrysqlalchemy/strawchemy/strawchemy_manager.py:115-166 | the `<Name>Db` variant: table names first, then the attributes of every field, then every `Db` class registered |
| `LegacyMapping.LegacyMapper.CreateDbClasses` | strawberrysqlalchemy/strawchemy/strawchemy_manager.py:116-119 | the first pass records every table name and attaches nothing |
| `InputTypes.DerivedName` | strawberrysqlalchemy/strawchemy/strawberry_conversion.py:104 | the derived class name is the model name followed by a six-letter suffix |
| `InputTypes.DerivedField` | strawberrysqlalchemy/strawchemy/strawberry_conversion.py:113-155 | Create: list and model references turn into the child's Create type, `id` becomes Optional with default None, other fields are kept. Update: list becomes `Optional[List[Optional[...Update]]]`, every field becomes Optional, one not declared Optional defaults to None. The name is kept |
| `InputTypes.DerivedFields` | strawberrysqlalchemy/strawchemy/strawberry_conversion.py:108-122 | the derived type's fields are the model's fields, each rewritten, in order |
| `InputTypes.ClosedPreserved` | strawberrysqlalchemy/strawchemy/strawberry_conversion.py:100-122 | a derivation that records only complete types keeps the memo closed: derived types refer only to derived types |
| `InputTypes.UpdateTypeAllOptional` | strawberrysqlalchemy/strawchemy/strawberry_conversion.py:138-155 | every field of an Update type is Optional, and one not declared Optional defaults to None |
| `InputTypes.DerivedKeepsFieldNames` | strawberrysqlalchemy/strawchemy/strawberry_conversion.py:104-122 | a derived type has the model type's field names in the same order |
| `InputTypes.SampleDerivedNames` | strawberrysqlalchemy/strawchemy/strawberry_conversion.py:104 | the sample's derived names are `DatafileCreate`, `CrsCreate`, `DatafileUpdate` and `CrsUpdate` |
| `InputTypes.DerivedListOfModel` | strawberrysqlalchemy/strawchemy/strawberry_conversion.py:114-148 | a list of a model becomes a list of its Create type, or `Optional[List[Optional[...Update]]]` with default None |
| `InputTypes.DerivedModelReference` | strawberrysqlalchemy/strawchemy/strawberry_conversion.py:117-152 | a model reference becomes its Create type, or `Optional[...Update]` with default None |
| `InputTypes.DerivedScalarField` | strawberrysqlalchemy/strawchemy/strawberry_conversion.py:120-155 | Create makes only `id` Optional with default None; Update makes every scalar so |
| `InputTypes.DerivedOptionalModel` | strawberrysqlalchemy/strawchemy/strawberry_conversion.py:113-155 | an Optional reference to a model, other than `id`, is kept as it is by both derivations |
| `InputTypes.DatasetCreateFields` | strawberrysqlalchemy/strawchemy/strawberry_conversion.py:113-122 | `Dataset`'s Create type: optional `id` defaulting to None, `name` kept, `List[DatafileCreate]`, `Optional[Datafile]` kept, `CrsCreate` |
| `InputTypes.DatasetUpdateFields` | strawberrysqlalchemy/strawchemy/strawberry_conversion.py:138-155 | `Dataset`'s Update type: every field Optional, defaulting to None unless declared Optional |
| `InputTypes.SampleDefinesReferencedTypes` | strawchemy/sample_model/dataset.py:9-15 | the sample defines `Datafile` and `Crs`, the classes `Dataset` refers to |
| `InputTypes.Deriver.constructor` | strawberrysqlalchemy/strawchemy/strawberry_conversion.py:100-102 | a derivation of the given kind over the model types, with an empty memo |
| `InputTypes.Deriver.Derive` | strawberrysqlalchemy/strawchemy/strawberry_conversion.py:100-155 | an already derived type returns at once and changes nothing; a failure names a non-model type the derivation reaches from `t`; a derivation reaching only model types passes, and from a closed memo it passes exactly then and keeps the memo closed; on success the type is derived, every type recorded is complete and none is replaced |
| `InputTypes.Deriver.RewriteField` | strawberrysqlalchemy/strawchemy/strawberry_conversion.py:113-122 | one field loop turn: the type it refers to is derived first, then field `j` is rewritten; a failure names a non-model type reached from the class through that field, and a field whose type reaches only model types cannot fail |
| `InputTypes.ReachesStep` | strawberrysqlalchemy/strawchemy/strawberry_conversion.py:113-122 | a type one field away from a model class is reached from it, and so is everything that type reaches |
| `InputTypes.ClosedChainRecorded` | strawberrysqlalchemy/strawchemy/strawberry_conversion.py:100-122 | from a type in a closed memo, every type reached along fields is a model type and is in the memo |
| `InputTypes.ClosedFullyDerivable` | strawberrysqlalchemy/strawchemy/strawberry_conversion.py:100-122 | a type in a closed memo reaches only model types |
| `Materializer.Collect` | strawberrysqlalchemy/strawchemy/strawberry_conversion.py:53 | the values of results that are all successes, in order; otherwise the first error |
| `Materializer.CollectFirstError` | strawberrysqlalchemy/strawchemy/strawberry_conversion.py:53 | the error of a list comprehension is that of the first failing element |
| `Materializer.MadeFields` | strawberrysqlalchemy/strawchemy/strawberry_conversion.py:42-56 | one value per input field |
| `Materializer.MadeItems` | strawberrysqlalchemy/strawchemy/strawberry_conversion.py:51-53 | one built element per list item, so list length and order are kept |
| `Materializer.LookedUpFields` | strawberrysqlalchemy/strawchemy/strawberry_conversion.py:25-35 | one looked-up value per field of the object |
| `Materializer.UpdatedFields` | strawberrysqlalchemy/strawchemy/strawberry_conversion.py:81-95 | one updated value per input field |
| `Materializer.Ids` | strawberrysqlalchemy/strawchemy/strawberry_conversion.py:66 | the id read from each existing element, in order |
| `Materializer.FirstWithId` | strawberrysqlalchemy/strawchemy/strawberry_conversion.py:66 | `next()` finds the first element whose id equals the item's, all earlier ones differing; or reports that none matches |
| `Materializer.LookedUpKeepsPlain` | strawberrysqlalchemy/strawchemy/strawberry_conversion.py:24-35 | the lookup replaces only values of model-typed fields |
| `Materializer.MadeKeepsId` | strawberrysqlalchemy/strawchemy/strawberry_conversion.py:39-60 | `make_object` builds an object of the requested class, shaped like it, carrying the id the input gave |
| `Materializer.UpdateKeepsIdentity` | strawberrysqlalchemy/strawchemy/strawberry_conversion.py:77-97 | with a truthy input id, `update_object` returns the object it was given: same class, same id |
| `Materializer.UpdateAppliesTruthyOnly` | strawberrysqlalchemy/strawchemy/strawberry_conversion.py:81-95 | `id` and falsy input values (None, 0, "", False, []) leave a field as it was; a truthy plain value replaces it |
| `Materializer.MergedNext` | strawberrysqlalchemy/strawchemy/strawberry_conversion.py:64-74 | merging one more item is one more item step |
| `Materializer.MergedErrorSticks` | strawberrysqlalchemy/strawchemy/strawberry_conversion.py:63-74 | an error stops the merge: later items are never merged |
| `Materializer.MergeKeepsExisting` | strawberrysqlalchemy/strawchemy/strawberry_conversion.py:63-74 | `merge_lists` never removes or reorders an existing element: each keeps its position and id, and the list grows by one per item without an id |
| `Materializer.MergedItemKeepsExisting` | strawberrysqlalchemy/strawchemy/strawberry_conversion.py:65-74 | one item step keeps every element's position and id and appends at most one element |
| `Materializer.MergeAsWrittenRaisesStopIteration` | strawberrysqlalchemy/strawchemy/strawberry_conversion.py:65-70 | as written, an item whose id matches no element raises StopIteration, and the `ValueError` branch is dead; otherwise the written and intended steps agree |
| `Materializer.MergedItemAsWritten` | strawberrysqlalchemy/strawchemy/strawberry_conversion.py:65-74 | as written, one item step succeeds exactly when the intended one does, with the same list, and raises StopIteration only where the intended step fails |
| `Materializer.MergedItem` | strawberrysqlalchemy/strawchemy/strawberry_conversion.py:65-74 | one item step keeps every element and adds at most one |
| `Materializer.Merged` | strawberrysqlalchemy/strawchemy/strawberry_conversion.py:63-74 | merging `n` items keeps every element and adds at most `n` |
| `Materializer.Made` | strawberrysqlalchemy/strawchemy/strawberry_conversion.py:39-60 | a built object has the requested class and one value per field |
| `Materializer.LookedUp` | strawberrysqlalchemy/strawchemy/strawberry_conversion.py:24-35 | a looked-up object keeps its class and its number of fields |
| `Materializer.Updated` | strawberrysqlalchemy/strawchemy/strawberry_conversion.py:77-97 | an updated object has the input's class and one value per field |
| `Materializer.MergeUnknownIdExample` | strawberrysqlalchemy/strawchemy/strawberry_conversion.py:66 | updating Datafile 2 against a list holding only Datafile 1 raises StopIteration as written, and is item-not-found as intended |
| `Materializer.MakeObject` | strawberrysqlalchemy/strawchemy/strawberry_conversion.py:39-60 | the loop builds exactly the object `Made` specifies, or its error |
| `Materializer.MakeField` | strawberrysqlalchemy/strawchemy/strawberry_conversion.py:43-55 | None gives `[]` for a list field and None otherwise; a nested object or list is built recursively; anything else is copied |
| `Materializer.LookupItemsWithIds` | strawberrysqlalchemy/strawchemy/strawberry_conversion.py:24-35 | the loop gives exactly the looked-up object |
| `Materializer.LookupField` | strawberrysqlalchemy/strawchemy/strawberry_conversion.py:26-35 | a truthy model value with an id is replaced by its session row when the row exists and kept when it does not; one whose id is None is looked up in turn |
| `Materializer.UpdateObject` | strawberrysqlalchemy/strawchemy/strawberry_conversion.py:77-97 | the loop gives exactly the updated object `Updated` specifies |
| `Materializer.UpdateField` | strawberrysqlalchemy/strawchemy/strawberry_conversion.py:86-95 | a nested object updates the current one, a list is merged, anything else is assigned |
| `Materializer.MergeLists` | strawberrysqlalchemy/strawchemy/strawberry_conversion.py:63-74 | the loop gives exactly the merge of every item in order |
| `Materializer.MergeStep` | strawberrysqlalchemy/strawchemy/strawberry_conversion.py:64-74 | one item more; an error is final |
| `Materializer.MergeItem` | strawberrysqlalchemy/strawchemy/strawberry_conversion.py:65-74 | an item with a truthy id updates the first element with that id; one without is built, looked up and appended; no element with the id is the intended `ValueError`, not the StopIteration raised as written |
| `Manager.ClassifyQuery` | strawchemy/strawchemy_manager.py:43-63 | as intended: fetch-all exactly when the lower-cased name contains "fetchall"; fetch-by-id exactly when it does not but contains "fetch" and "byid" and the type is not a list; otherwise the list or unknown-name error (the list error is never raised as written) |
| `Manager.ClassifyQueryAsWritten` | strawchemy/strawchemy_manager.py:43-63 | as written: fetch-all exactly when the lower-cased name contains "fetchall"; fetch-by-id exactly when it does not but contains "fetch" and "byid", whatever the type; otherwise only the unknown-name error |
| `Manager.FetchAllNamesContainFetch` | strawchemy/strawchemy_manager.py:43-51 | every "fetchall" name also contains "fetch", so the fetch-all test must come first |
| `Manager.ListByIdAcceptedAsWritten` | strawchemy/strawchemy_manager.py:52-53 | the written and intended bindings differ exactly on list-typed by-id fields, which the written one binds to fetch-by-id |
| `Manager.FetchAllExample` | strawchemy/strawchemy_manager.py:43-50 | "fetchAllDatasets" binds fetch-all |
| `Manager.FetchByIdExample` | strawchemy/strawchemy_manager.py:51-61 | "FetchDatasetById" binds fetch-by-id |
| `Manager.ListByIdExample` | strawchemy/strawchemy_manager.py:52-53 | a list-typed "fetchById" is rejected as intended and accepted as written |
| `Manager.UnknownQueryExample` | strawchemy/strawchemy_manager.py:62-63 | "datasets" is an unknown query name |
| `Manager.MutationResolvers` | strawchemy/strawchemy_manager.py:69-114 | create, update and delete resolvers are bound exactly when the lower-cased name starts with "create", "update" or "delete" |
| `Manager.AtMostOneMutationResolver` | strawchemy/strawchemy_manager.py:69-101 | the three prefixes exclude each other: at most one resolver per field |
| `Manager.BoundQueries` | strawchemy/strawchemy_manager.py:41-63 | as intended: every query field bound by its classification, in order, exactly when all can be bound; otherwise a list or unknown-name error |
| `Manager.BoundQueriesStops` | strawchemy/strawchemy_manager.py:41-63 | binding stops at the first field that cannot be bound, with its error |
| `Manager.MutationTable` | strawchemy/strawchemy_manager.py:65-114 | at most one resolver per mutation field |
| `Manager.SchemaModelTypes` | strawchemy/strawchemy_manager.py:121-125 | exactly the non-input object types other than Query and Mutation are collected |
| `Manager.StrawchemyManager.constructor` | strawchemy/strawchemy_manager.py:27-33 | keeps the Query and Mutation classes; nothing bound, derived or mapped yet |
| `Manager.StrawchemyManager.Schema` | strawchemy/strawchemy_manager.py:40-128 | query binding errors are reported first; a list error names a list-typed field the code as written binds to fetch-by-id, and on success every binding is also the as-written one; a derivation failure names a non-model type some mutation type reaches, and from closed memos it happens exactly when some mutation type reaches one; on success every query and mutation field is bound, every delete resolver targets its own field's type as intended while the recorded as-written targets are all the last field's type, and every mutation type has both input types; the collected types are validated and mapped only when valid, and a failure maps nothing |
| `Manager.StrawchemyManager.ValidateAndMap` | strawchemy/strawchemy_manager.py:127-128 | validation decides the outcome; the tables are those of the validated types, and nothing is mapped on failure |
| `Manager.StrawchemyManager.MapTypes` | strawchemy/strawchemy_manager.py:128 | a fresh mapper's table names and attributes for the validated types |
| `Manager.StrawchemyManager.BindQueries` | strawchemy/strawchemy_manager.py:41-63 | the loop binds exactly `BoundQueries`, or fails with its error |
| `Manager.StrawchemyManager.BindMutations` | strawchemy/strawchemy_manager.py:64-114 | every mutation field gets its resolvers, its intended and its as-written delete target, and its type both input types; a failure names a non-model type reached from the first field whose derivation fails; all fields reaching only model types means success, and from closed memos success means exactly that |
| `Manager.StrawchemyManager.DeriveBoth` | strawchemy/strawchemy_manager.py:65-66 | the create, then the update, input type of one mutation type, whatever the field's name; it fails only naming a reached non-model type, passes when every reached type is a model type, exactly then from closed memos, and keeps them closed |
| `Manager.DeleteTargets` | strawchemy/strawchemy_manager.py:100-103 | as intended, each field with a delete resolver loads from its own type, and no other field has one |
| `Manager.DeleteTargetsAsWritten` | strawchemy/strawchemy_manager.py:64-103 | as written, each delete resolver loads from the last mutation field's type |
| `Manager.DeleteTargetsAsWrittenShared` | strawchemy/strawchemy_manager.py:64-103 | as written, all delete resolvers share one target, which is a field's own type exactly when the types match the last field's |
| `Manager.DeleteTargetsSeparate` | strawchemy/strawchemy_manager.py:100-103 | as intended, delete resolvers of fields of different types load different types |
| `Manager.DeleteResultAsWritten` | strawchemy/strawchemy_manager.py:100-106 | as written, the row of the last mutation field's type, while the not-found error names the field's own return type |
| `Manager.WrongTableDeleteExample` | strawchemy/strawchemy_manager.py:64-112 | with `deleteDataset` before `createSupplier`, as written deleting Dataset 1 returns Supplier 1, and a present Dataset 1 is reported missing; as intended it returns Dataset 1 |
| `Manager.UpdateResolverSpec` | strawchemy/strawchemy_manager.py:83-97 | a falsy id is the `ValueError`; a missing row is the `LookupError`; otherwise the stored row is returned updated, with its class and id |
| `Manager.UpdateResult` | strawchemy/strawchemy_manager.py:83-97 | a result only for an input with a truthy id whose row is found; a not-found error names the mutation's type |
| `Manager.DeleteResult` | strawchemy/strawchemy_manager.py:102-112 | the stored row exactly when there is one, otherwise the not-found error naming class and id |
| `Manager.DatabaseSession.MutateCreate` | strawchemy/strawchemy_manager.py:71-77 | the object `make_object` builds is added and returned; on error nothing is added |
| `Manager.DatabaseSession.MutateUpdate` | strawchemy/strawchemy_manager.py:83-97 | returns the update result; on success the row is replaced by the updated object, and on error the session is unchanged |
| `Manager.DatabaseSession.MutateDelete` | strawchemy/strawchemy_manager.py:100-112 | for the class it is given (the field's recorded delete target), returns the delete result; on success exactly that row is removed, and on error the session is unchanged |
| `Manager.DeletedRowIsGone` | strawchemy/strawchemy_manager.py:101-112 | a deleted row can be neither deleted nor updated again: both report not found |
| `LegacySchema.OriginModelType` | strawberrysqlalchemy/strawchemy/schema.py:186-188 | a `List[X]` hint resolves to `X`; any other hint to itself |
| `LegacySchema.ResolvedTypes` | strawberrysqlalchemy/strawchemy/schema.py:167-172 | exactly the resolved hints that are non-builtin classes, without repetition |
| `LegacySchema.SubTypesAsWritten` | strawberrysqlalchemy/strawchemy/schema.py:176-180 | as written: the followed hints not yet collected, comparing the unresolved hint |
| `LegacySchema.NestedAsWritten` | strawberrysqlalchemy/strawchemy/schema.py:163-184 | as written, with a recursion budget: a finished collection holds everything collected before it |
| `LegacySchema.NestedLoopAsWritten` | strawberrysqlalchemy/strawchemy/schema.py:174-182 | as written: a finished loop holds every class it visits, and a loop with classes left and no budget left is the recursion error |
| `LegacySchema.SubTypes` | strawberrysqlalchemy/strawchemy/schema.py:176-180 | every followed hint whose resolved type is not yet collected, and only hints of the class |
| `LegacySchema.Nested` | strawberrysqlalchemy/strawchemy/schema.py:163-184 | the accumulated set only grows |
| `LegacySchema.NestedLoop` | strawberrysqlalchemy/strawchemy/schema.py:174-182 | the accumulated set only grows |
| `LegacySchema.NestedCloses` | strawberrysqlalchemy/strawchemy/schema.py:163-184 | the collection holds every starting class, only classes, and every class a followed hint of a newly collected class resolves to |
| `LegacySchema.NestedLoopCloses` | strawberrysqlalchemy/strawchemy/schema.py:174-182 | the same, for the loop over the resolved types |
| `LegacySchema.NestedModelTypesClosed` | strawberrysqlalchemy/strawchemy/schema.py:163-184 | the model types are the least closed set: every queriable class, only classes reachable through followed hints, closed under them |
| `LegacySchema.NestedModelTypes` | strawberrysqlalchemy/strawchemy/schema.py:47 | the model types are classes only, and only those the queriable types and the declared classes' hints can reach |
| `LegacySchema.NestedFixtureCollected` | tests/test_strawchemy_schema.py:34-37 | `[NestedModel, 1, 2]` collects exactly NestedModel, NestedModelA and NestedModelA1, across the `loop` back edge |
| `LegacySchema.ListCycleDiverges` | strawberrysqlalchemy/strawchemy/schema.py:176-182 | as written, a class whose only self-reference is `List[Self]` exhausts any recursion budget |
| `LegacySchema.SelfListDiverges` | strawberrysqlalchemy/strawchemy/schema.py:174-182 | as written, any class that reaches itself again through its own list hint never finishes |
| `LegacySchema.ListCycleCollected` | strawberrysqlalchemy/strawchemy/schema.py:163-184 | with the resolved hint compared, that class is collected once |
| `LegacySchema.MutableCheckAsWritten` | strawberrysqlalchemy/strawchemy/schema.py:42-45 | as written, the check passes only for a non-empty mutable set contained in the queriable one |
| `LegacySchema.MutableCheck` | strawberrysqlalchemy/strawchemy/schema.py:44-45 | passes exactly when every mutable type is queriable; otherwise the subset error |
| `LegacySchema.OmittedMutableSet` | strawberrysqlalchemy/strawchemy/schema.py:42-45 | as written, an omitted or empty mutable set fails with the missing `issubset`; corrected, it passes |
| `LegacySchema.MutableChecksAgree` | strawberrysqlalchemy/strawchemy/schema.py:42-45 | on a non-empty mutable set both checks agree |
| `LegacySchema.TypeMap` | strawberrysqlalchemy/strawchemy/schema.py:23-35 | agrees with `MAPPED_TYPES` on the seven mapped scalars |
| `LegacySchema.TypeMapInjective` | strawberrysqlalchemy/strawchemy/schema.py:23-35 | different scalar classes get different column types |
| `LegacySchema.ScalarColumns` | strawberrysqlalchemy/strawchemy/schema.py:96-100 | at most one column per hint |
| `LegacySchema.ForeignKeyColumns` | strawberrysqlalchemy/strawchemy/schema.py:102-106 | at most one foreign-key column per hint |
| `LegacySchema.ScalarColumnsFromHints` | strawberrysqlalchemy/strawchemy/schema.py:96-100 | a column exactly for each `TYPE_MAP` hint, with its column type; primary key exactly when named `id` |
| `LegacySchema.ForeignKeyColumnsFromHints` | strawberrysqlalchemy/strawchemy/schema.py:102-106 | a foreign-key column to `snake(T).id` exactly for each hint naming a collected type `T` |
| `LegacySchema.TableColumnsFromHints` | strawberrysqlalchemy/strawchemy/schema.py:96-121 | the table's columns are exactly the scalar and model-typed hints; the primary key is exactly the typed `id` |
| `LegacySchema.OneToMany` | strawberrysqlalchemy/strawchemy/schema.py:110-115 | exactly the list hints, each mapped to its element type |
| `LegacySchema.SimpleModelWired` | tests/test_strawchemy_schema.py:46-58 | `SimpleModel` gets the table `simple_model` with integer `id` as primary key, integer `root_value_1` and string `wibble` |
| `LegacySchema.SnakeSimpleModel` | strawberrysqlalchemy/strawchemy/schema.py:159-161 | "SimpleModel" becomes "simple_model" |
| `LegacySchema.QueryFields` | strawberrysqlalchemy/strawchemy/schema.py:80-89 | fails only on a value that has no name |
| `LegacySchema.QueryNamesDiffer` | strawberrysqlalchemy/strawchemy/schema.py:83-88 | a `GetAll` name never equals a `GetById` name |
| `LegacySchema.QueryFieldsExist` | strawberrysqlalchemy/strawchemy/schema.py:80-89 | the Query class can be built exactly when every queriable value is named |
| `LegacySchema.QueryFieldsCover` | strawberrysqlalchemy/strawchemy/schema.py:80-89 | every queriable type gets `GetAll<T>` and `GetById<T>` |
| `LegacySchema.QueryFieldsOnly` | strawberrysqlalchemy/strawchemy/schema.py:80-89 | the Query class has no other field: each is `GetAll<T>: List[T]` or `GetById<T>: T` for a queriable `T` |
| `LegacySchema.QueryFieldsTyped` | strawberrysqlalchemy/strawchemy/schema.py:82-88 | for a type whose name is unique, `GetAll<T>` is `List[T]` and `GetById<T>` is `T` |
| `LegacySchema.MakeQueryObject` | strawberrysqlalchemy/strawchemy/schema.py:80-89 | the loop builds exactly `QueryFields` |
| `LegacySchema.WithoutId` | strawberrysqlalchemy/strawchemy/schema.py:134-135 | exactly the hints not named `id` |
| `LegacySchema.InputFields` | strawberrysqlalchemy/strawchemy/schema.py:134-137 | fails only on a hint that cannot be instantiated |
| `LegacySchema.InputFieldsCopyHints` | strawberrysqlalchemy/strawchemy/schema.py:131-139 | the input type copies every hint except `id`, in order, exactly when each can be instantiated |
| `LegacySchema.InputTypeOf` | strawberrysqlalchemy/strawchemy/schema.py:131-139 | a value without a name has no input type |
| `LegacySchema.MakeInputTypeFromType` | strawberrysqlalchemy/strawchemy/schema.py:131-139 | the loop builds exactly `InputTypeOf` |
| `LegacySchema.MutationFieldsExist` | strawberrysqlalchemy/strawchemy/schema.py:65-78 | the Mutation class can be built exactly when every mutable type has an input type |
| `LegacySchema.MutationFieldsCover` | strawberrysqlalchemy/strawchemy/schema.py:65-78 | every mutable type gets `Create<T>` |
| `LegacySchema.MutationFieldsOnly` | strawberrysqlalchemy/strawchemy/schema.py:65-78 | each mutation field is `Create<T>` for a mutable `T`, returning `T` and taking `T`'s input type |
| `LegacySchema.MakeMutationObject` | strawberrysqlalchemy/strawchemy/schema.py:65-78 | the loop builds exactly `MutationFields` |
| `LegacySchema.SchemaOfAsWritten` | strawberrysqlalchemy/strawchemy/schema.py:40-63 | with the mutable check as written, the constructor fails with the missing `issubset` whenever the mutable set is omitted or empty, and otherwise behaves as `SchemaOf`, whose collection is the corrected one |
| `LegacySchema.SchemaOf` | strawberrysqlalchemy/strawchemy/schema.py:40-63 | a schema's tables are keyed by exactly the collected model types, of which there is at least one |
| `LegacySchema.Wired` | strawberrysqlalchemy/strawchemy/schema.py:52-63 | the tables are keyed by exactly the model types wired |
| `LegacySchema.StrawchemySchema.New` | strawberrysqlalchemy/strawchemy/schema.py:40-63 | the constructor fails with `SchemaOf`'s error, or builds a fresh schema holding `SchemaOf`'s parts |
| `LegacySchema.StrawchemySchema.Generate` | strawberrysqlalchemy/strawchemy/schema.py:52-63 | wiring, then the Query and Mutation classes, as `Wired` specifies |
| `LegacySchema.StrawchemySchema.WireSqlalchemyIntoQueriables` | strawberrysqlalchemy/strawchemy/schema.py:91-128 | fails exactly when a collected type is a library scalar class; otherwise every collected type gets its table and one-to-many map; Query and Mutation are untouched |
| `LegacySchema.WireTypes` | strawberrysqlalchemy/strawchemy/schema.py:95-121 | the loop over the collected types: the same outcome and maps |
| `LegacySchema.SchemaSucceeds` | strawberrysqlalchemy/strawchemy/schema.py:40-63 | as written, construction succeeds exactly when the mutable set is non-empty and the corrected construction succeeds; corrected, it succeeds exactly when the mutable set is contained, something is collected, no collected type is a library class, every queriable value is named and every mutable type has an input type |
| `LegacySchema.SchemaWiresReachableClasses` | strawberrysqlalchemy/strawchemy/schema.py:47-52 | a built schema has a table for every queriable class and every class reachable from one, and each table is built from that class's hints |
| `LegacySchema.LibraryHintRejected` | strawberrysqlalchemy/strawchemy/schema.py:110-121 | a followed hint to a library class such as `datetime` is collected, and wiring it fails |
| `LegacySchema.NothingCollected` | strawberrysqlalchemy/strawchemy/schema.py:167-172 | starting values none of which resolve to a class collect nothing |
| `LegacySchema.NoQueriableClassRejected` | strawberrysqlalchemy/strawchemy/schema.py:49-50 | as written, `[]` and `[1, 2]` without a mutable set fail on the missing `issubset`; corrected, with the no-model-types error |
| `LegacySchema.NonClassQueriableRejected` | strawberrysqlalchemy/strawchemy/schema.py:80-84 | as written, `[NestedModel, 1, 2]` without a mutable set fails on the missing `issubset`; corrected, because `1` has no name |
| `LegacySchema.UnnamedQueriableRejected` | strawberrysqlalchemy/strawchemy/schema.py:80-84 | the first unnamed queriable value is the error, once collection and wiring succeed |
| `LegacySchema.SimpleModelSchema` | tests/test_strawchemy_schema.py:46-58 | as written, `[SimpleModel]` without a mutable set fails on the missing `issubset`; corrected, it builds a schema whose only table is `simple_model` |
| `LegacySchema.LeafClassSchema` | strawberrysqlalchemy/strawchemy/schema.py:40-63 | a class with no class-typed hint builds a schema with its table only |
| `LegacyStrawchemyManager.ConvertedClassShape` | strawberrysqlalchemy/strawchemy/strawchemy_manager.py:95-113 | a derived class is named `name + suffix` and keeps the field names; in the input variant every field is Optional with default None, otherwise defaults are kept |
| `LegacyStrawchemyManager.ConvertedTypeRoundTrip` | strawberrysqlalchemy/strawchemy/strawchemy_manager.py:105-113 | removing the suffix and the added `Optional` gives back every declared field type |
| `LegacyStrawchemyManager.ConvertedRefersToDerived` | strawberrysqlalchemy/strawchemy/strawchemy_manager.py:105-109 | after the rewrite no field names a model class; every class named is one of the derived classes |
| `LegacyStrawchemyManager.OperationNamesDistinct` | strawberrysqlalchemy/strawchemy/strawchemy_manager.py:197-200 | two operation names are equal only for the same class and the same suffix |
| `LegacyStrawchemyManager.QueryOperationsOnly` | strawberrysqlalchemy/strawchemy/strawchemy_manager.py:183-198 | every query operation is `<T>All` or `<T>ById` for a model `T` |
| `LegacyStrawchemyManager.QueryOperations` | strawberrysqlalchemy/strawchemy/strawchemy_manager.py:183-198 | at most two query operations per object class |
| `LegacyStrawchemyManager.QueryOperationsAt` | strawberrysqlalchemy/strawchemy/strawchemy_manager.py:183-198 | `<T>All` returns `List[T]` with no argument, and `<T>ById` takes `_id: int` and returns `Optional[T]` |
| `LegacyStrawchemyManager.MutationOperationsOnly` | strawberrysqlalchemy/strawchemy/strawchemy_manager.py:190-200 | every mutation operation is `<T>Upsert` or `<T>Delete` |
| `LegacyStrawchemyManager.MutationOperations` | strawberrysqlalchemy/strawchemy/strawchemy_manager.py:190-200 | at most two mutation operations per object class |
| `LegacyStrawchemyManager.MutationOperationsAt` | strawberrysqlalchemy/strawchemy/strawchemy_manager.py:190-200 | `<T>Upsert` takes the input class and returns `Optional[T]`; `<T>Delete` takes `id: int` and returns `bool` |
| `LegacyStrawchemyManager.FourOperationsPerModel` | strawberrysqlalchemy/strawchemy/strawchemy_manager.py:183-200 | the schema has exactly four operations per model, with those signatures |
| `LegacyStrawchemyManager.DerivedNames` | strawberrysqlalchemy/strawchemy/strawchemy_manager.py:46-47 | every model gets an object class with its own name and an input class named `<Name>Input` |
| `LegacyStrawchemyManager.StrawchemyManager.constructor` | strawberrysqlalchemy/strawchemy/strawchemy_manager.py:42-44 | holds the discovered dataclasses and a fresh mapper |
| `LegacyStrawchemyManager.StrawchemyManager.Init` | strawberrysqlalchemy/strawchemy/strawchemy_manager.py:42-48 | fails exactly when validation fails, with its error; otherwise both derived classes are attached to every model and the `Db` classes are mapped and registered |
| `LegacyStrawchemyManager.StrawchemyManager.CreateStrawberryTypes` | strawberrysqlalchemy/strawchemy/strawchemy_manager.py:93-113 | every model gets its derived class under the given attribute |
| `LegacyStrawchemyManager.StrawchemyManager.CopyClasses` | strawberrysqlalchemy/strawchemy/strawchemy_manager.py:95-97 | the first loop attaches a renamed copy of every model |
| `LegacyStrawchemyManager.StrawchemyManager.RewriteFields` | strawberrysqlalchemy/strawchemy/strawchemy_manager.py:99-113 | the fields of model `i`'s copy are rewritten, and nothing else changes |
| `LegacyStrawchemyManager.StrawchemyManager.Schema` | strawberrysqlalchemy/strawchemy/strawchemy_manager.py:178-202 | the Query and Mutation operations are those of the derived object and input classes |

## Left out

- Database I/O is not modelled: engines, `metadata.create_all`, SQL statements, commits, and the session's own semantics. The session is a finite map from (class, id) to row. `session.add` is an append to a list of added objects.
- Strawberry and SQLAlchemy objects are replaced by plain descriptors: columns, foreign keys, relationships, strawberry fields and schema classes. `registry.mapped` is an entry in a list of registered class names.
- Module discovery (`__discover_model_dataclasses`) is not modelled; the manager takes the dataclasses as a list. The dict keyed by class name is the `UniqueNames` precondition of the older manager.
- Classes are identified by their names. The older manager's `self.__model_dataclasses[get_args(...)[0].__name__]` lookup and the `__name__` of a generated class are names, too.
- Aliasing and object identity are not modelled: the materialiser works on values and returns the object it updates. In-place updates that one object shares with another reference are not captured.
- Iteration over Python sets is modelled in one fixed order, a sequence; results that depend on set order are not distinguished.
- Python's Unicode `str.lower()` is not modelled; `snake_it` is modelled over ASCII letters only.
- The `info` parameter of resolvers and the request context are left out; the mutation and query resolvers take the session directly.
- The GraphQL query resolvers' own database queries (fetch-all and fetch-by-id) are not modelled; only which resolver a field is bound to is.
- `create_strawberry_types` in strawberry_conversion.py (marking `id` Private) is not modelled; the current manager does not call it.
- `add_attr` in both utils files is not modelled; the older manager's operations are stated as the map of names to signatures it builds.
- The older manager's sample session at strawchemy_manager.py:52-57 is not modelled; neither is `__run_sql`.
- `StrawchemySchema.model_types` is not modelled: the code never sets it, although its tests read it. The model's tables are keyed by the collected types instead.
- `LegacySchema.StrawchemySchema.New`: the `TypeError` message text is not modelled, only the error.
- `LegacySchema.SchemaOf`: models the constructor with the corrected mutable check (`MutableCheck`); the constructor as written is `LegacySchema.SchemaOfAsWritten`.
- `LegacySchema.StrawchemySchema.New`: builds the schema with the corrected mutable check, as `SchemaOf` does; as written it fails whenever the mutable set is omitted or empty.
- `LegacySchema.SchemaSucceeds`: its second clause characterises the corrected construction; the first clause states what changes as written.
- `LegacySchema.LibraryHintRejected`: assumes the corrected mutable check passes; as written a missing mutable set fails first.
- `LegacySchema.UnnamedQueriableRejected`: assumes the corrected mutable check passes; as written a missing mutable set fails first.
- `LegacySchema.NoQueriableClassRejected`: its first two clauses are about the corrected construction; the last two state the as-written outcome.
- `LegacySchema.NonClassQueriableRejected`: its first clause is about the corrected construction; the second states the as-written outcome.
- `LegacySchema.LeafClassSchema`: about the corrected construction only; as written, omitting the mutable set fails first.
- `LegacySchema.SchemaSucceeds`: strawberry's own schema checks and SQLAlchemy's mapping checks are not modelled, so the success it states is only that of the code on these lines. Strawberry rejects a `Mutation` type with no field at schema.py:60-63, which happens whenever the mutable set is empty. `registry.mapped` at schema.py:127-128 rejects a class with no primary key, which is any class without an `id` hint of a mapped scalar type.
- `LegacySchema.SchemaOf`: its success leaves out the same two library checks, the empty `Mutation` type and the missing primary key.
- `LegacySchema.StrawchemySchema.New`: its success leaves out the same two library checks.
- `LegacySchema.SimpleModelSchema`: the corrected construction it states succeeds would still be rejected by strawberry, because without a mutable set the `Mutation` type has no field.
- `LegacySchema.LeafClassSchema`: the success it states leaves out strawberry's rejection of the empty `Mutation` type and `registry.mapped`'s rejection of a class without an `id` primary key.
- The resolver closures for `GetAll`/`GetById`/`Create` in schema.py are not modelled; they return empty results.
- Extensions (database session, error handler), `resolvers.py`, `decorators.py`, `main.py` and `graphql_schema.py` are not modelled: they are framework plumbing.
- `LegacySchema.NestedAsWritten`: the as-written recursion takes a fuel bound, and running out of fuel (None) stands for the recursion that never ends. The corrected `LegacySchema.Nested` terminates by the number of classes still to collect.
- `RelationalMapping.Mapper.CreateSqlalchemyTypes`: requires the list to have passed validation, as the manager always ensures. On an unvalidated list the source raises a `KeyError` or attaches attributes to classes outside the list, and that is not modelled.
- `LegacyMapping.LegacyMapper.CreateSqlalchemyTypes`: requires the list to have passed the older validation, for the same reason.
- `LegacyMapping.LegacyMapper.CreateDbTypes`: requires the list to have passed the older validation, which the older manager runs first.
- `InputTypes.Deriver.Derive`: a list field of a non-model element makes the source fail while setting its memo attribute. The model reports that as a failure naming the element type; it does not model the partly rewritten types left behind.
- `Manager.ClassifyQuery`: models the intended query check, which rejects a list-typed by-id field; the check as written (`Manager.ClassifyQueryAsWritten`) binds it to fetch-by-id.
- `Manager.BoundQueries`: binds through the intended `Manager.ClassifyQuery`, so its list error is never raised by the code as written.
- `Manager.StrawchemyManager.Schema`: its outcome is that of the intended query check and the intended delete targets (`Manager.DeleteTargets`). It states the as-written binding and targets (`Manager.ClassifyQueryAsWritten`, `Manager.DeleteTargetsAsWritten`) beside them, but the code as written never fails with the list error.
- `Manager.StrawchemyManager.BindMutations`: the delete target it records in `deleteTargets` is the intended one; the as-written target, the last Mutation field's type, is recorded in the ghost field `deleteTargetsAsWritten`.
- `Materializer.MergeItem`: an update item whose truthy id matches no element gives the intended `ItemNotFound` error, where the code as written raises StopIteration from `next()` (`Materializer.MergedItemAsWritten`). `Materializer.MergeStep`, `Materializer.MergeLists`, `Materializer.UpdateField` and `Materializer.UpdateObject` inherit that error, and so do `Materializer.Merged` and `Materializer.Updated`, which they implement.
- `LegacySchema.SchemaOfAsWritten`: collects the model types with the corrected `LegacySchema.Nested`. For a class reaching itself through a `List` hint it returns, where the code as written recurses until RecursionError (`LegacySchema.SelfListDiverges`).
- `LegacySchema.SchemaOf`: collects with the corrected `LegacySchema.Nested`; on a class reaching itself through a `List` hint the code as written never returns.
- `LegacySchema.StrawchemySchema.New`: collects with the corrected `LegacySchema.Nested`, as `SchemaOf` does.
- `LegacySchema.SchemaSucceeds`: both clauses rest on the corrected collection, so its "exactly when" does not hold as written for a class reaching itself through a `List` hint, which never returns.
- `Manager.StrawchemyManager.Schema`: after a failing mutation derivation the resolvers already bound stay bound. The contract leaves the bindings unspecified in that case.

## Findings

| source | as written | input that shows it | evidently intended | confidence | as-written member | corrected member |
|---|---|---|---|---|---|---|
| strawberrysqlalchemy/strawchemy/schema.py:42-45 | `mutable_types or {}` replaces an omitted or empty set by an empty dict, and a dict has no `issubset` | `StrawchemySchema(queriable_types={A}, engine=e)` with no mutable set | the empty set, which is a subset of any queriable set | not executed | `LegacySchema.OmittedMutableSet` (on `LegacySchema.MutableCheckAsWritten` and `LegacySchema.SchemaOfAsWritten`) | `LegacySchema.MutableCheck` (used by `LegacySchema.SchemaOf`) |
| strawberrysqlalchemy/strawchemy/schema.py:176-182 | the visited filter compares the unresolved hint `List[X]` with the collected classes, so a cycle through a list hint is never cut | `class Category: id: int; children: List["Category"]` | compare the resolved type, so each class is collected once | not executed | `LegacySchema.ListCycleDiverges` (on `LegacySchema.NestedAsWritten`) | `LegacySchema.ListCycleCollected` (on `LegacySchema.Nested`) |
| strawberrysqlalchemy/strawchemy/sqlalchemy_mapper.py:24-29 | the foreign-key column is named after the target type, so two references to the same class write one column | `Transfer(id: int, source: Account, target: Account)` | a column per field, as the current mapper does | not executed | `LegacyMapping.LegacyReferencesShareColumn` | `LegacyMapping.CurrentReferencesSeparateColumns` |
| strawberrysqlalchemy/strawchemy/strawberry_conversion.py:66-70 | `next()` without a default raises StopIteration when no element has the id, so the `ValueError` branch is dead | merging an item with id 2 into a list holding only id 1 | the "Item in list with id that does not exist" `ValueError` | not executed | `Materializer.MergeAsWrittenRaisesStopIteration` (on `Materializer.MergedItemAsWritten`) | `Materializer.MergedItemKeepsExisting` (on `Materializer.MergedItem`) |
| strawchemy/strawchemy_manager.py:52-53 | `get_origin(field.type)` of an already resolved strawberry type is None, so a list-typed by-id field is never rejected | a Query field `fetchById: List[Dataset]` | reject it with "Fetch..ById Query members cannot be lists" | not executed | `Manager.ListByIdExample` (on `Manager.ClassifyQueryAsWritten`) | `Manager.ClassifyQuery` |
| strawchemy/strawchemy_manager.py:64-103 | `mutate_delete` calls `session.get(field.type, id_)`, and the closure reads the loop variable `field` when it is called, after the loop has left it on the last Mutation field | a Mutation class with `deleteDataset: Dataset` followed by `createSupplier: Supplier`, and a call of `deleteDataset(id_=1)` | load and delete from the field's own type, as the return annotation and the error message (`info.return_type`) do | not executed | `Manager.WrongTableDeleteExample` (on `Manager.DeleteTargetsAsWritten` and `Manager.DeleteResultAsWritten`) | `Manager.DeleteTargetsSeparate` (on `Manager.DeleteTargets`, recorded by `Manager.StrawchemyManager.BindMutations`) |
