# strawberry-django-optimizer, modelled in Dafny

This project models the query optimizer of `strawberry_django_optimizer`. The
optimizer walks the selection tree of a GraphQL query alongside the Django model
metadata of the Strawberry types. It turns the tree into a query plan, which it
then chains onto a Django queryset. The plan has three parts:

- `select_related` join paths for to-one relations;
- `prefetch_related` lookups for to-many relations;
- an `only` column list.

A field that neither the model nor the field's optimisation hints account for
aborts the column restriction, unless the optimizer was told to keep it
(`disable_abort_only`).

Modules:

- `Wrappers`: `Option`.
- `Queries`: querysets as inert terms `Base | SelectRel | PrefetchRel | Only`, and
  prefetch lookups `Name(path) | Prefetch(path, queryset)`. It gives them a
  meaning: `ModelOf` is the model a queryset ranges over, `Fetches` the relation
  paths it loads, and `Columns` the column restriction in force. It also holds
  lookup-path algebra: `__` re-rooting, `add_prefix`, and the first step of a
  path.
- `OptimizerStore`: `QueryOptimizerStore` as an immutable record. Every mutating
  method becomes a function returning the new store. `only_list is None` is
  `onlyList == None`, which is what `Disabled` means.
- `Hints`: `OptimizationHints` and its two normalisers. Whether `is_iterable`
  accepts a hint value is recorded in the value's constructor.
- `Schema`: the walker's inputs as plain data. These are the selection tree, the
  Strawberry field definitions and Django model fields, and an `Env` that holds
  the type definitions, the possible types, the models, `to_camel_case` and the
  `disable_abort_only` option. `_get_type` is `NamedType` here, the named type
  under all list and non-null wrappers; the walker uses it directly.
- `Optimizer`: `QueryOptimizer` itself. `_optimize_gql_selections` becomes
  `OptimizeGqlSelections` and `WalkLevel`. The body of its loop over the
  selections is `Step`, and the loop over the possible types is `ForEachType`.
  The module also holds `_optimize_field`, `_optimize_field_by_name`,
  `_optimize_field_by_hints`, `_add_optimization_hints`,
  `_get_name_from_field_dev`, `_get_model_field_from_name` and
  `_is_foreign_key_id`.
- `OptimizerProps`: lemmas that relate several selections, levels or types.
- `FruitExample`: the fruit/colour schema of the tests and the plans the walker
  builds for the tests' queries.

The source mutates stores and `Prefetch` objects in place. A child store is
built by a recursive call and merged into its parent once. Every `Prefetch`
the walker re-roots was built during the same walk, for that child store. So
returning new values gives the same result. That holds here because hint
values are strings; `Prefetch` objects returned by hints are left out (see
below).

## Model

| member | source | states |
|---|---|---|
| OptimizerStore.Init | src/strawberry_django_optimizer/store.py:13-17 | A new store has no joins, no prefetches and an empty but live column restriction, and keeps the given flag. |
| OptimizerStore.InitRendersNothing | src/strawberry_django_optimizer/store.py:13-17 | A new store, whatever its flag, leaves any queryset unchanged when rendered. |
| OptimizerStore.Only | src/strawberry_django_optimizer/store.py:53-55 | Appends exactly the column to a live restriction and changes nothing else. An aborted restriction stays aborted. |
| OptimizerStore.AbortOnlyOptimization | src/strawberry_django_optimizer/store.py:57-59 | Afterwards the restriction is aborted exactly when it already was or the store does not keep it. A kept restriction is untouched, and the joins and prefetches never change. |
| OptimizerStore.SelectRelated | src/strawberry_django_optimizer/store.py:19-36 | The parent's lists only grow. The child's joins are re-rooted under the relation, or the relation alone is joined when the child joins nothing. The child's prefetches are re-rooted, and its columns are re-rooted when both restrictions stand. A child without a restriction aborts the parent's (subject to the flag). |
| OptimizerStore.SelectRelatedComposes | src/strawberry_django_optimizer/store.py:19-36 | What the parent's rendered queryset loads after the join is what it loaded before, plus the child plan's loads re-rooted under the relation (up to the relation itself). |
| OptimizerStore.SelectedJoins | src/strawberry_django_optimizer/store.py:20-24 | Together with the relation itself, the parent's joins afterwards are its joins before plus the child's joins re-rooted under the relation. |
| OptimizerStore.SelectedLookups | src/strawberry_django_optimizer/store.py:25-30 | What the parent's lookups load afterwards is what they loaded before plus what the child's lookups load, re-rooted under the relation. |
| OptimizerStore.PrefetchRelated | src/strawberry_django_optimizer/store.py:38-51 | Three cases. A child that joins or restricts becomes one `Prefetch` of the child rendered onto the related queryset. A child that only prefetches has its lookups re-rooted. Otherwise the bare name is added. The parent's joins and columns are untouched. |
| OptimizerStore.PrefetchRelatedComposes | src/strawberry_django_optimizer/store.py:38-51 | What the parent's rendered queryset loads after the prefetch is what it loaded before, plus the child plan's loads re-rooted under the relation (up to the relation itself). |
| OptimizerStore.PrefetchedLookups | src/strawberry_django_optimizer/store.py:40-51 | The lookups a prefetch adds load the child's plan under the relation, in each of the three cases. |
| OptimizerStore.OptimizeQueryset | src/strawberry_django_optimizer/store.py:61-71 | The rendered queryset ranges over the same model. It loads the queryset's paths, every join, and everything every lookup loads. Its column restriction is the store's when the store has columns and the queryset's otherwise. The `select_related` call is given exactly the joins and the `prefetch_related` call exactly the lookups, `Prefetch` querysets included. The calls come in the order joins, prefetches, columns, with `only` outermost whenever there are columns. One call is chained per non-empty list and none for an empty one, so no call is ever given an empty list. An empty plan returns the queryset itself. |
| OptimizerStore.OptimizeQuerysetOrder | src/strawberry_django_optimizer/store.py:62-69 | The three steps are chained in the order joins, prefetches, columns. |
| OptimizerStore.Append | src/strawberry_django_optimizer/store.py:73-80 | Joins and prefetches are concatenated. The result is aborted exactly when either side is, whatever the flag says. Otherwise the columns are concatenated. |
| OptimizerStore.AppendAssociative | src/strawberry_django_optimizer/store.py:73-80 | Appending is associative. |
| OptimizerStore.AppendInit | src/strawberry_django_optimizer/store.py:73-80 | A new store is a right identity of appending. On the left it is an identity up to the flag, because the receiver's flag is kept. |
| Queries.AddPrefix | src/strawberry_django_optimizer/store.py:26-29 | Re-roots the lookup's path under the prefix, keeps its kind, and keeps a `Prefetch`'s queryset. |
| Queries.AddPrefixFetches | src/strawberry_django_optimizer/store.py:26-29 | Re-rooting a lookup re-roots everything it loads. |
| Queries.AddPrefixEachFetches | src/strawberry_django_optimizer/store.py:25-30 | Re-rooting every lookup of a list re-roots everything the list loads. |
| Queries.UnderEach | src/strawberry_django_optimizer/store.py:20-22 | The i-th result is the i-th path with `prefix__` in front, and the lengths agree. |
| Queries.UnderEachElems | src/strawberry_django_optimizer/store.py:20-22 | The set of re-rooted join paths is the re-rooted set of paths. |
| Queries.FirstStep | src/strawberry_django_optimizer/query.py:251-252 | The result is the text before the first `__` of the path, or the whole path when it has none. |
| Queries.FirstStepUnder | src/strawberry_django_optimizer/query.py:251-252 | For a relation name without `__` that does not end in `_`, the first step of `name__rest` is `name`. |
| Hints.NormalizeModelField | src/strawberry_django_optimizer/hints.py:4-7 | A callable is kept as it is. Any other value, `None` included, becomes a function returning that value for all arguments. |
| Hints.NormalizeHintValue | src/strawberry_django_optimizer/hints.py:10-15 | A callable is kept. An iterable value is returned as it is, and a single value as a one-element tuple, for all arguments. |
| Hints.StaticHintIsConstant | src/strawberry_django_optimizer/hints.py:10-15 | A normalised static hint gives the same iterable on every call, and a single value gives a truthy one. |
| Hints.MakeHints | src/strawberry_django_optimizer/hints.py:18-29 | Each of the four attributes is its argument normalised on its own. |
| Hints.DefaultHintsAreInert | src/strawberry_django_optimizer/hints.py:19-25 | The defaults name no model field and give only falsy results, for any arguments. |
| Schema.GetType | src/strawberry_django_optimizer/query.py:56-60 | `NamedType` is the model of `_get_type` that the walker uses. `GetType` writes out the same loop over `of_type` and reaches `NamedType`, the named type under all list and non-null wrappers. |
| Optimizer.OptimizeGqlSelections | src/strawberry_django_optimizer/query.py:107-148 | An empty level returns the store it was given, or a new store with the optimizer's flag. Otherwise the result extends that store (lists only grow and an abort is never undone), and a kept restriction is never aborted. |
| Optimizer.WalkLevel | src/strawberry_django_optimizer/query.py:117-148 | Walking a level extends the store, never aborts a kept restriction, and only adds to the record of optimised names. |
| Optimizer.Step | src/strawberry_django_optimizer/query.py:120-147 | One selection extends the store. The record of optimised names stays the same or gains just that field's name. |
| Optimizer.ForEachType | src/strawberry_django_optimizer/query.py:132-147 | The loop over possible types extends the store and never unmarks a field as optimised. |
| Optimizer.FindFieldDef | src/strawberry_django_optimizer/query.py:139-141 | The result is the first definition whose camel-cased name is the selected name. It is None exactly when no definition has that name. |
| Optimizer.OptimizeField | src/strawberry_django_optimizer/query.py:150-154 | A field the model does not account for and without hints aborts the restriction. Any other field gets what the model metadata adds by name, and then what its hints add. So a hinted field the model does not know gets only its hints, and an unhinted column becomes one `only`. |
| Optimizer.OptimizeFieldByName | src/strawberry_django_optimizer/query.py:156-190 | Reports success exactly when the model has the field and it is a foreign-key column or a relation of a known kind. On failure the store is unchanged. A column, or a foreign key's attname, becomes exactly one `only`. A to-one relation is joined with the plan of its sub-selections against the field's type. A to-many relation is prefetched with that plan over the related model's queryset, restricted also to the foreign key back to the parent for a reverse relation. |
| Optimizer.ReverseKeyed | src/strawberry_django_optimizer/query.py:181-182 | The child plan of a reverse foreign-key relation also restricts to the foreign key back to the parent, while that restriction stands. Its joins and prefetches are the child's, and it is aborted exactly when the child is. |
| Optimizer.HintItems | src/strawberry_django_optimizer/query.py:192-197 | A falsy hint result adds nothing, an iterable adds its items, and a single value adds itself. |
| Optimizer.OptimizeFieldByHints | src/strawberry_django_optimizer/query.py:199-210 | Reports whether the field has hints. It appends what the select and prefetch hints return for the argument names, the prefetches as bare names, and the columns only while the restriction stands. It never aborts or revives the restriction. |
| Optimizer.NameFromFieldDef | src/strawberry_django_optimizer/query.py:212-218 | The name a hint's `model_field` gives when called without arguments, when it gives one, and the field's own name otherwise. |
| Optimizer.ModelFieldFromName | src/strawberry_django_optimizer/query.py:249-258 | Looks up the first step of the name among the model's fields, then among the descriptors' related fields. It is None exactly when neither has it. |
| Optimizer.Optimize | src/strawberry_django_optimizer/query.py:48-54 | The result is the walked plan rendered onto the queryset. It ranges over the same model and loads what the queryset loads plus the plan's joins and everything its lookups load. The calls are given exactly the plan's joins and lookups, in the order joins, prefetches, columns, and `only` carries the plan's columns when it has any. No selections leave the queryset unchanged. |
| OptimizerProps.ForEachTypeDispatchesFirstMatch | src/strawberry_django_optimizer/query.py:132-147 | A non-`rows` field is optimised once, against the first possible type that defines it and has a model, or not at all. Once it is marked optimised, no further type is tried. |
| OptimizerProps.FieldStepDispatch | src/strawberry_django_optimizer/query.py:126-147 | A field whose name is already optimised at its level changes nothing. Any other field is optimised against its first match and its name is recorded. |
| OptimizerProps.UnhintedFieldByModel | src/strawberry_django_optimizer/query.py:150-154 | Without hints, a field gets what the model metadata adds when that succeeds and an aborted restriction otherwise. |
| OptimizerProps.RowsWalkedOncePerType | src/strawberry_django_optimizer/query.py:135-138 | A `rows` field with sub-selections walks them against the level's type once per possible type, and is never marked optimised. |
| OptimizerProps.WalkLevelAppend | src/strawberry_django_optimizer/query.py:120-148 | Walking two runs of selections in turn is walking their concatenation. |
| OptimizerProps.WalkLevelSeen | src/strawberry_django_optimizer/query.py:145-146 | Only the names of fields at the level are recorded as optimised. |
| OptimizerProps.WalkLevelSeenIrrelevant | src/strawberry_django_optimizer/query.py:145 | Recorded names that do not occur at the level do not affect the walk. |
| OptimizerProps.SpreadInlines | src/strawberry_django_optimizer/query.py:129-131 | A fragment spread gives the same store as its selections written in its place, provided its field names are disjoint from its neighbours'. |
| OptimizerProps.SkippedSelectionsContributeNothing | src/strawberry_django_optimizer/query.py:121-128 | Inline fragments and `__typename` can be removed from a level without changing the result. |
| OptimizerProps.OccurredFieldsAreSettled | src/strawberry_django_optimizer/query.py:145-147 | After a level, every ordinary field name in it is recorded as optimised, unless no possible type with a model defines the name. |
| OptimizerProps.RepeatedFieldIgnored | src/strawberry_django_optimizer/query.py:145-147 | A field whose name occurred earlier at the level contributes nothing. |
| OptimizerProps.UnrecognisedFieldAbortsRestriction | src/strawberry_django_optimizer/query.py:150-154 | A first occurrence of a field that neither the model nor hints account for leaves the level's restriction aborted when the store does not keep it. |
| OptimizerProps.RecognisedFieldsKeepRestriction | src/strawberry_django_optimizer/query.py:107-190 | The converse of the abort: when every field of the tree walked into the store is accounted for, a store that has a restriction keeps it. This covers the level, its spreads and `rows` envelopes, and its to-one relations. |
| OptimizerProps.ColumnLevel | src/strawberry_django_optimizer/query.py:117-147 | A level of hint-less plain columns joins and prefetches nothing. It restricts the store to the columns of the first occurrence of each name, in order, and an aborted restriction stays aborted. |
| OptimizerProps.StaticHintItems | src/strawberry_django_optimizer/hints.py:10-15 | A hint given as a plain value adds, for any arguments, the items of an iterable and the value itself otherwise. |
| OptimizerProps.ModelFieldHintNamesField | src/strawberry_django_optimizer/query.py:212-218 | A static `model_field` hint names the model field, even an empty name. Default hints, or no hints, leave the schema field's own name. |
| OptimizerProps.SingleStepLookup | src/strawberry_django_optimizer/query.py:249-258 | A name without `__` is looked up as it is: among the model's fields first, then among the related descriptors, and None when neither has it. |
| OptimizerProps.ForeignKeyIdIsColumn | src/strawberry_django_optimizer/query.py:260-265 | A foreign key selected by its column name rather than its own name is exactly one `only` of that column and no join. Selected by its own name it is the relation and is joined. |
| OptimizerProps.ColumnFieldStep | src/strawberry_django_optimizer/query.py:164-167 | A first occurrence of a field naming a plain column or a foreign-key column adds that column, then what its hints add, and records the name. Without hints it adds exactly that column. |
| OptimizerProps.ToOneFieldStep | src/strawberry_django_optimizer/query.py:168-175 | A first occurrence of a to-one relation joins the relation with the plan built from its sub-selections against the field's type, then adds what its hints add. |
| OptimizerProps.ToManyFieldStep | src/strawberry_django_optimizer/query.py:176-186 | A first occurrence of a to-many relation prefetches the plan built from its sub-selections, restricted also to the foreign key back to the parent for a reverse relation, over the related model's queryset. It then adds what its hints add. |
| OptimizerProps.UnknownFieldStep | src/strawberry_django_optimizer/query.py:150-162 | A first occurrence of a field the model does not have gets only what its hints add, or aborts the restriction when it has none. |
| FruitExample.OptimizedFruitsPlan | tests/fruit/fruits/tests/test_related_fields.py:33-52 | `fruits { id name color { id name } }` joins `color` and restricts to `id, name, color__id, color__name`. |
| FruitExample.OptimizedColorsPlan | tests/fruit/fruits/tests/test_related_fields.py:76-95 | `colors { id name fruits { id name } }` prefetches `fruits` with a queryset restricted to `id, name, color`, and restricts the colours to `id, name`. |
| FruitExample.FruitFragmentPlan | tests/fruit/fruits/tests/test_fragments.py:8-31 | A spread of the same selections builds the same plan. |
| FruitExample.InlineFragmentNotOptimised | src/strawberry_django_optimizer/query.py:121-125 | The same selections in an inline fragment leave the queryset unoptimised. |
| FruitExample.HintedFieldKeepsRestriction | src/strawberry_django_optimizer/query.py:199-210 | A field known only through a static prefetch hint adds the hinted lookups as bare names and keeps the restriction. |
| FruitExample.UnknownFieldAbortsRestriction | src/strawberry_django_optimizer/query.py:150-154 | A resolver field with no model field and no hints aborts the restriction. |
| FruitExample.SpreadRepeatsPrefetch | src/strawberry_django_optimizer/query.py:129-131 | A to-many relation selected both beside a spread and inside it is prefetched twice. Written out in place, it is prefetched once. |

## Left out

- Logging (`_logger`) has no effect on the plan and is not modelled.
- Running queries is not modelled. Querysets are inert terms, and `Fetches`, `Columns` and `ModelOf` describe what the chained calls ask Django for, not what SQL it emits.
- Schema access is given as data in `Env`, not modelled: `type_._type_definition`, `type_._django_type.model`, `LazyType.resolve_type`, `_get_possible_types` and `_get_graphql_schema`. `to_camel_case` is an arbitrary function of the environment.
- `is_iterable` and `noop` come from `utils.py`, which is not part of this model. The `HintValue` constructors say which values `is_iterable` accepts.
- `handle_inline_fragment`, `_get_base_model` and `_is_resolver_for_id_field` are never called by the walker, so they are not modelled. Inline fragments are skipped, as `_optimize_gql_selections` does.
- `optimize_query` is not modelled. It only picks the first selected field's selections when none are given, which is framework glue. `QueryOptimizer.optimize` is modelled as `Optimizer.Optimize`.
- `field.py`, `resolver.py` and `__init__.py` wire the optimizer into Strawberry resolvers and are not part of this model.
- Hints.NormalizeHintValue: requires a static value not to be `None`. The source would wrap it into the truthy tuple `(None,)`, which `HintValue` cannot hold. `None` as a hint value is not a documented use.
- Hints.MakeHints: has the same requirement for its three hint arguments.
- Hint values are strings. A hint may also return `Prefetch` objects, which `_add_optimization_hints` appends as they are. A static hint is normalised once into one closure, so it returns the same objects on every call. `select_related` and `prefetch_related` then re-root those shared objects in place with `add_prefix`, again on every walk that nests the field under a relation. That sharing, across fields and across requests, is not modelled.
- Schema.ObjectType: a type without a model has `model == None` and its fields are skipped. The source reads `type_._django_type.model` only once a field definition matches. A plain Strawberry type there has no `_django_type` and raises `AttributeError`, and only a falsy `model` is skipped. The model does not have this error path.
- Each `ModelField` carries one `Relation` kind. That folds together Django's `many_to_one`, `one_to_one`, `one_to_many`, `many_to_many` and `is_relation` flags, which do not combine in other ways for real fields.

## Behaviour of the code worth knowing

- A to-one relation adds its own columns under its name (src/strawberry_django_optimizer/store.py:31-36, src/strawberry_django_optimizer/query.py:168-175). So the query of tests/fruit/fruits/tests/test_related_fields.py:33-52 is restricted to `id, name, color__id, color__name` (`FruitExample.OptimizedFruitsPlan`).
- A fragment spread is walked by a recursive call with a fresh `optimized_fields_by_model` (src/strawberry_django_optimizer/query.py:117 and 129-131). It plans like its selections written in its place only when its field names are disjoint from its neighbours' (`OptimizerProps.SpreadInlines`, `FruitExample.SpreadRepeatsPrefetch`).
- Inline fragments are skipped (src/strawberry_django_optimizer/query.py:121-125). The query of tests/fruit/fruits/tests/test_fragments.py:61-81 expects a single database query, but the walker gives it an empty plan (`FruitExample.InlineFragmentNotOptimised`).
- `append` (src/strawberry_django_optimizer/store.py:73-80) aborts the receiver's restriction whenever the other store's is aborted, whatever `disable_abort_only` says. The walker never calls it (`OptimizerStore.Append`).
