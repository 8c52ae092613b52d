/** `QueryOptimizer`: the selection walker.

    The walker visits the selections of one level against the possible
    Strawberry types of that level and feeds a store: a scalar column becomes
    an `only`, a to-one relation a `select_related` of the plan built for its
    own selections, a to-many relation a `prefetch_related`, and hints add
    their lookups as they are.  A field that neither the model metadata nor a
    hint accounts for aborts the "only" optimisation. */
module Optimizer {
  import opened Wrappers
  import Q = Queries
  import H = Hints
  import S = OptimizerStore
  import opened Schema

  /** The store a walk starts from when none is given. */
  function FreshStore(env: Env): S.Store
  {
    S.Init(env.disableAbortOnly)
  }

  /** Aborting the restriction is left to `store`'s flag: a store that keeps
      its restriction and has one still has one in `r`. */
  predicate KeepsRestriction(store: S.Store, r: S.Store)
  {
    store.disableAbortOnly && !S.Disabled(store) ==> !S.Disabled(r)
  }

  /** `_optimize_gql_selections(selections, graphql_type, store)`: walk one
      level into `store`, or into a fresh store when none is given.  An empty
      level returns that store unchanged. */
  function OptimizeGqlSelections(env: Env, sels: seq<Selection>, t: TypeName, store: Option<S.Store>): (r: S.Store)
    ensures |sels| == 0 ==> r == store.GetOr(FreshStore(env))
    ensures S.Extends(store.GetOr(FreshStore(env)), r)
    ensures KeepsRestriction(store.GetOr(FreshStore(env)), r)
    decreases sels, 1
  {
    var start := store.GetOr(FreshStore(env));
    if |sels| == 0 then start
    else WalkLevel(env, sels, t, env.possibleTypes(t), start, {}).0
  }

  /** The loop over the selections of one level.  `seen` holds the names
      already optimised at this level (the keys of `optimized_fields_by_model`). */
  function WalkLevel(env: Env, sels: seq<Selection>, t: TypeName, types: seq<TypeName>,
                     store: S.Store, seen: set<string>): (r: (S.Store, set<string>))
    ensures S.Extends(store, r.0)
    ensures KeepsRestriction(store, r.0)
    ensures seen <= r.1
    decreases sels, 0
  {
    if |sels| == 0 then (store, seen)
    else
      var (store1, seen1) := Step(env, sels[0], t, types, store, seen);
      S.ExtendsTransitive(store, store1, WalkLevel(env, sels[1..], t, types, store1, seen1).0);
      WalkLevel(env, sels[1..], t, types, store1, seen1)
  }

  /** One selection of a level: inline fragments and `__typename` are
      skipped, a fragment spread is walked into the same store against the
      same type, and a field is tried against each possible type. */
  function Step(env: Env, sel: Selection, t: TypeName, types: seq<TypeName>,
                store: S.Store, seen: set<string>): (r: (S.Store, set<string>))
    ensures S.Extends(store, r.0)
    ensures KeepsRestriction(store, r.0)
    ensures r.1 == seen || (sel.Field? && r.1 == seen + {sel.name})
    decreases sel
  {
    match sel
    case InlineFragment(_, _) => (store, seen)
    case FragmentSpread(name, inner) =>
      if name == "__typename" then (store, seen)
      else (OptimizeGqlSelections(env, inner, t, Some(store)), seen)
    case Field(name, _, _) =>
      if name == "__typename" then (store, seen)
      else
        var (store1, optimized) := ForEachType(env, sel, t, types, store, name in seen);
        (store1, if optimized then seen + {name} else seen)
  }

  /** The loop over the possible types for one field.  A `rows` field with
      sub-selections walks them into the store against the level's type, once
      per possible type; any other field is optimised against the first type
      that defines it and has a model, unless the name was already optimised
      (`optimized`). */
  function ForEachType(env: Env, sel: Selection, t: TypeName, types: seq<TypeName>,
                       store: S.Store, optimized: bool): (r: (S.Store, bool))
    requires sel.Field?
    ensures S.Extends(store, r.0)
    ensures KeepsRestriction(store, r.0)
    ensures optimized ==> r.1
    decreases sel, |types|, 0
  {
    if |types| == 0 then (store, optimized)
    else if sel.name == "rows" && |sel.selections| > 0 then
      var store1 := OptimizeGqlSelections(env, sel.selections, t, Some(store));
      S.ExtendsTransitive(store, store1, ForEachType(env, sel, t, types[1..], store1, optimized).0);
      ForEachType(env, sel, t, types[1..], store1, optimized)
    else
      var obj := env.objectType(types[0]);
      match FindFieldDef(env.toCamelCase, obj.fields, sel.name)
      case None => ForEachType(env, sel, t, types[1..], store, optimized)
      case Some(def) =>
        if obj.model.Some? && !optimized then
          var store1 := OptimizeField(env, store, obj.model.value, sel, def);
          S.ExtendsTransitive(store, store1, ForEachType(env, sel, t, types[1..], store1, true).0);
          ForEachType(env, sel, t, types[1..], store1, true)
        else
          ForEachType(env, sel, t, types[1..], store, optimized)
  }

  /** The first field definition whose camel-cased name is `name`. */
  function FindFieldDef(toCamelCase: string -> string, fields: seq<FieldDef>, name: string): (r: Option<FieldDef>)
    ensures r.None? <==> forall i :: 0 <= i < |fields| ==> toCamelCase(fields[i].name) != name
    ensures r.Some? ==> exists i :: 0 <= i < |fields| && fields[i] == r.value
                                 && toCamelCase(fields[i].name) == name
                                 && forall j :: 0 <= j < i ==> toCamelCase(fields[j].name) != name
    decreases |fields|
  {
    if |fields| == 0 then None
    else if toCamelCase(fields[0].name) == name then Some(fields[0])
    else
      var r := FindFieldDef(toCamelCase, fields[1..], name);
      assert forall i :: 0 < i < |fields| ==> fields[i] == fields[1..][i - 1];
      r
  }

  /** `_optimize_field`: try the model metadata, then the hints, and abort the
      restriction when neither accounts for the field. */
  function OptimizeField(env: Env, store: S.Store, model: Q.ModelName, sel: Selection, def: FieldDef): (r: S.Store)
    requires sel.Field?
    ensures S.Extends(store, r)
    ensures KeepsRestriction(store, r)
    ensures !Recognised(env.models(model), def) ==> r == S.AbortOnlyOptimization(store)
    ensures Recognised(env.models(model), def) ==>
              r == OptimizeFieldByHints(OptimizeFieldByName(env, store, model, sel, def).0, sel, def).0
    ensures def.hints.Some? && ModelFieldFromName(env.models(model), NameFromFieldDef(def)).None? ==>
              r == OptimizeFieldByHints(store, sel, def).0
    ensures def.hints.None? && PlainColumn(env.models(model), NameFromFieldDef(def)) ==>
              r == S.Only(store, NameFromFieldDef(def))
    decreases sel, 0, 1
  {
    var (store1, byName) := OptimizeFieldByName(env, store, model, sel, def);
    var (store2, byHints) := OptimizeFieldByHints(store1, sel, def);
    S.ExtendsTransitive(store, store1, store2);
    if !(byName || byHints) then
      S.ExtendsTransitive(store, store2, S.AbortOnlyOptimization(store2));
      S.AbortOnlyOptimization(store2)
    else store2
  }

  /** The field is accounted for: the model has it under the name in use and
      it is a foreign-key column or not an unknown kind of relation, or the
      field carries hints. */
  predicate Recognised(m: Model, def: FieldDef)
  {
    || def.hints.Some?
    || (var name := NameFromFieldDef(def);
        var mf := ModelFieldFromName(m, name);
        mf.Some? && (IsForeignKeyId(mf.value, name) || !mf.value.relation.OtherRelation?))
  }

  /** The name is a column of the model: a foreign key's attname or a
      non-relation field. */
  predicate PlainColumn(m: Model, name: string)
  {
    var mf := ModelFieldFromName(m, name);
    mf.Some? && (IsForeignKeyId(mf.value, name) || mf.value.relation.Column?)
  }

  /** `_optimize_field_by_name`: dispatch on the kind of model field.  The
      result says whether the field was accounted for. */
  function OptimizeFieldByName(env: Env, store: S.Store, model: Q.ModelName, sel: Selection, def: FieldDef): (r: (S.Store, bool))
    requires sel.Field?
    ensures S.Extends(store, r.0)
    ensures KeepsRestriction(store, r.0)
    ensures r.1 <==> (var name := NameFromFieldDef(def);
                      var mf := ModelFieldFromName(env.models(model), name);
                      mf.Some? && (IsForeignKeyId(mf.value, name) || !mf.value.relation.OtherRelation?))
    ensures !r.1 ==> r.0 == store
    ensures PlainColumn(env.models(model), NameFromFieldDef(def)) ==> r.0 == S.Only(store, NameFromFieldDef(def))
    ensures (var name := NameFromFieldDef(def);
             var mf := ModelFieldFromName(env.models(model), name);
             mf.Some? && !IsForeignKeyId(mf.value, name) && mf.value.relation.ToOne? ==>
               r.0 == S.SelectRelated(store, name, OptimizeGqlSelections(env, sel.selections, NamedType(def.fieldType), None)))
    ensures (var name := NameFromFieldDef(def);
             var mf := ModelFieldFromName(env.models(model), name);
             var child := OptimizeGqlSelections(env, sel.selections, NamedType(def.fieldType), None);
             mf.Some? && !IsForeignKeyId(mf.value, name) && mf.value.relation.ToMany? ==>
               r.0 == S.PrefetchRelated(store, name, ReverseKeyed(child, mf.value.relation.reverseForeignKey),
                                        Q.Base(mf.value.relation.relatedModel)))
    ensures r.0.onlyList != store.onlyList ==> r.1
    decreases sel, 0, 0
  {
    var name := NameFromFieldDef(def);
    match ModelFieldFromName(env.models(model), name)
    case None => (store, false)
    case Some(mf) =>
      if IsForeignKeyId(mf, name) then (S.Only(store, name), true)
      else
        match mf.relation
        case ToOne =>
          var child := OptimizeGqlSelections(env, sel.selections, NamedType(def.fieldType), None);
          (S.SelectRelated(store, name, child), true)
        case ToMany(related, reverseForeignKey) =>
          var child := OptimizeGqlSelections(env, sel.selections, NamedType(def.fieldType), None);
          (S.PrefetchRelated(store, name, ReverseKeyed(child, reverseForeignKey), Q.Base(related)), true)
        case Column => (S.Only(store, name), true)
        case OtherRelation => (store, false)
  }

  /** A reverse relation's child plan also loads the foreign key back to the
      parent, which `prefetch_related` needs to match the rows up. */
  function ReverseKeyed(child: S.Store, reverseForeignKey: Option<string>): (r: S.Store)
    ensures r.selectList == child.selectList && r.prefetchList == child.prefetchList
    ensures S.Disabled(r) <==> S.Disabled(child)
    ensures reverseForeignKey.None? ==> r == child
    ensures reverseForeignKey.Some? && !S.Disabled(child) ==>
              r.onlyList.value == child.onlyList.value + [reverseForeignKey.value]
  {
    if reverseForeignKey.Some? then S.Only(child, reverseForeignKey.value) else child
  }

  /** What `_add_optimization_hints` appends for one hint result: nothing for
      a falsy result, the result itself when it is iterable, and a one-element
      tuple of it otherwise. */
  function HintItems(v: H.HintValue): (r: seq<string>)
    ensures !H.Truthy(v) ==> r == []
    ensures H.Truthy(v) && H.IsIterable(v) ==> r == v.items
    ensures H.Truthy(v) && !H.IsIterable(v) ==> r == [v.atom]
  {
    if !H.Truthy(v) then []
    else match v
      case Atom(a) => [a]
      case Items(xs) => xs
  }

  /** Hint lookups go into the prefetch list as bare strings. */
  function NameLookups(names: seq<string>): (r: seq<Q.Lookup>)
    ensures |r| == |names|
    ensures forall i :: 0 <= i < |names| ==> r[i] == Q.Name(names[i])
  {
    seq(|names|, i requires 0 <= i < |names| => Q.Name(names[i]))
  }

  /** `_optimize_field_by_hints`: append what the hints return for the
      field's arguments, the columns only while the restriction stands.  The
      result says whether the field had hints at all. */
  function OptimizeFieldByHints(store: S.Store, sel: Selection, def: FieldDef): (r: (S.Store, bool))
    requires sel.Field?
    ensures S.Extends(store, r.0)
    ensures r.1 <==> def.hints.Some?
    ensures def.hints.None? ==> r.0 == store
    ensures def.hints.Some? ==>
              var h, args := def.hints.value, sel.arguments;
              && r.0.selectList == store.selectList + HintItems(h.selectRelated(args))
              && r.0.prefetchList == store.prefetchList + NameLookups(HintItems(h.prefetchRelated(args)))
              && (S.Disabled(r.0) <==> S.Disabled(store))
              && (!S.Disabled(store) ==> r.0.onlyList.value == store.onlyList.value + HintItems(h.only(args)))
  {
    match def.hints
    case None => (store, false)
    case Some(h) =>
      var args := sel.arguments;
      var store1 := store.(selectList := store.selectList + HintItems(h.selectRelated(args)));
      var store2 := store1.(prefetchList := store1.prefetchList + NameLookups(HintItems(h.prefetchRelated(args))));
      var store3 :=
        if store2.onlyList.Some? then store2.(onlyList := Some(store2.onlyList.value + HintItems(h.only(args))))
        else store2;
      (store3, true)
  }

  /** `_get_name_from_field_dev`: the model field name a hint names, called
      without arguments, when it names one; the field's own name otherwise. */
  function NameFromFieldDef(def: FieldDef): (r: string)
    ensures def.hints.Some? && def.hints.value.modelField([]).Some? ==> r == def.hints.value.modelField([]).value
    ensures def.hints.None? || def.hints.value.modelField([]).None? ==> r == def.name
  {
    match def.hints
    case Some(h) =>
      (match h.modelField([])
       case Some(name) => name
       case None => def.name)
    case None => def.name
  }

  /** `_get_model_field_from_name`: look up the first step of `name` with
      `get_field`, falling back to the `related` of a descriptor. */
  function ModelFieldFromName(m: Model, name: string): (r: Option<ModelField>)
    ensures r.Some? <==> Q.FirstStep(name) in m.fields || Q.FirstStep(name) in m.related
    ensures Q.FirstStep(name) in m.fields ==> r == Some(m.fields[Q.FirstStep(name)])
    ensures Q.FirstStep(name) !in m.fields && r.Some? ==> r == Some(m.related[Q.FirstStep(name)])
  {
    var key := Q.FirstStep(name);
    if key in m.fields then Some(m.fields[key])
    else if key in m.related then Some(m.related[key])
    else None
  }

  /** `_is_foreign_key_id`: `name` is the column of a foreign key, as opposed
      to the relation itself. */
  predicate IsForeignKeyId(mf: ModelField, name: string)
  {
    mf.isForeignKey && mf.name != name && mf.attname == name
  }

  /** `optimize(queryset, selections, gql_type)`: walk the selections into a
      fresh store and render it onto the queryset. */
  function Optimize(env: Env, queryset: Q.Query, sels: seq<Selection>, t: TypeName): (r: Q.Query)
    ensures Q.ModelOf(r) == Q.ModelOf(queryset)
    ensures |sels| == 0 ==> r == queryset
    ensures var plan := OptimizeGqlSelections(env, sels, t, None);
            && Q.Fetches(r) == Q.Fetches(queryset) + Q.Elems(plan.selectList) + Q.LookupsFetch(plan.prefetchList)
            && Q.Joins(r) == Q.Joins(queryset) + plan.selectList
            && Q.Lookups(r) == Q.Lookups(queryset) + plan.prefetchList
            && (S.HasColumns(plan) ==> r.Only? && r.columns == plan.onlyList.value)
            && (!S.HasColumns(plan) ==> Q.Columns(r) == Q.Columns(queryset))
            && Q.ChainedInOrder(r, queryset, 4)
  {
    S.InitRendersNothing(env.disableAbortOnly, queryset);
    S.OptimizeQueryset(OptimizeGqlSelections(env, sels, t, None), queryset)
  }
}
