/** Properties of the selection walker that relate several selections, levels
    or possible types. */
module OptimizerProps {
  import opened Wrappers
  import Q = Queries
  import S = OptimizerStore
  import H = Hints
  import opened Schema
  import opened Optimizer

  /** The names of the fields directly in a level (not those inside fragment
      spreads, which are walked as levels of their own). */
  function LevelNames(sels: seq<Selection>): set<string>
  {
    set i | 0 <= i < |sels| && sels[i].Field? :: sels[i].name
  }

  /** A field whose sub-selections stand in for the current level. */
  predicate IsRowsEnvelope(sel: Selection)
  {
    sel.Field? && sel.name == "rows" && |sel.selections| > 0
  }

  /** A selection the walker passes over. */
  predicate Skipped(sel: Selection)
  {
    sel.InlineFragment? || sel.name == "__typename"
  }

  /** The selections of a level without the skipped ones. */
  function Relevant(sels: seq<Selection>): (r: seq<Selection>)
    ensures forall i :: 0 <= i < |r| ==> !Skipped(r[i])
    ensures |r| <= |sels|
  {
    if |sels| == 0 then []
    else if Skipped(sels[0]) then Relevant(sels[1..])
    else [sels[0]] + Relevant(sels[1..])
  }

  /** The model and field definition the walker optimises a field name with:
      those of the first possible type that defines the name and has a model. */
  function FirstMatch(env: Env, types: seq<TypeName>, name: string): Option<(Q.ModelName, FieldDef)>
  {
    if |types| == 0 then None
    else
      var obj := env.objectType(types[0]);
      var def := FindFieldDef(env.toCamelCase, obj.fields, name);
      if def.Some? && obj.model.Some? then Some((obj.model.value, def.value))
      else FirstMatch(env, types[1..], name)
  }

  /** `store` walked `k` times with the same selections. */
  function WalkRepeatedly(env: Env, sels: seq<Selection>, t: TypeName, store: S.Store, k: nat): S.Store
    decreases k
  {
    if k == 0 then store else WalkRepeatedly(env, sels, t, OptimizeGqlSelections(env, sels, t, Some(store)), k - 1)
  }

  // ---------------------------------------------------------------------------
  // Hints

  /** A hint given as a plain value adds, whatever the field's arguments, the
      items of an iterable and the value itself otherwise. */
  lemma StaticHintItems(v: H.HintValue, args: H.Args)
    requires !v.Nothing?
    ensures HintItems(H.NormalizeHintValue(H.Static(v))(args)) == if v.Items? then v.items else [v.atom]
  {
  }

  /** A `model_field` hint names the model field a schema field stands for;
      without one, the schema field's own name is used. */
  lemma ModelFieldHintNamesField(n: string, ty: TypeRef, m: string)
    ensures NameFromFieldDef(FieldDef(n, ty, Some(H.MakeHints(modelField := H.Static(Some(m)))))) == m
    ensures NameFromFieldDef(FieldDef(n, ty, Some(H.MakeHints()))) == n
    ensures NameFromFieldDef(FieldDef(n, ty, None)) == n
  {
  }

  // ---------------------------------------------------------------------------
  // Possible types

  /** A field is optimised at most once, against the first possible type that
      defines it and has a model; once its name is marked optimised, no
      further possible type is tried. */
  lemma {:induction false} ForEachTypeDispatchesFirstMatch(
    env: Env, sel: Selection, t: TypeName, types: seq<TypeName>, store: S.Store, optimized: bool)
    requires sel.Field? && !IsRowsEnvelope(sel)
    ensures optimized ==> ForEachType(env, sel, t, types, store, optimized) == (store, true)
    ensures !optimized ==>
              ForEachType(env, sel, t, types, store, optimized)
              == match FirstMatch(env, types, sel.name)
                 case None => (store, false)
                 case Some(md) => (OptimizeField(env, store, md.0, sel, md.1), true)
    decreases |types|
  {
    if |types| > 0 {
      ForEachTypeDispatchesFirstMatch(env, sel, t, types[1..], store, optimized);
      var obj := env.objectType(types[0]);
      var def := FindFieldDef(env.toCamelCase, obj.fields, sel.name);
      if def.Some? && obj.model.Some? && !optimized {
        var store1 := OptimizeField(env, store, obj.model.value, sel, def.value);
        ForEachTypeDispatchesFirstMatch(env, sel, t, types[1..], store1, true);
      }
    }
  }

  /** One field of a level: a name already optimised at the level changes
      nothing; any other name is optimised against its first match, if it has
      one, and is then recorded as optimised. */
  lemma FieldStepDispatch(env: Env, sel: Selection, t: TypeName, types: seq<TypeName>,
                          store: S.Store, seen: set<string>)
    requires sel.Field? && !IsRowsEnvelope(sel) && sel.name != "__typename"
    ensures Step(env, sel, t, types, store, seen)
         == if sel.name in seen then (store, seen)
            else match FirstMatch(env, types, sel.name)
                 case None => (store, seen)
                 case Some(md) => (OptimizeField(env, store, md.0, sel, md.1), seen + {sel.name})
  {
    ForEachTypeDispatchesFirstMatch(env, sel, t, types, store, sel.name in seen);
    if sel.name in seen {
      assert seen + {sel.name} == seen;
    }
  }

  /** Without hints a field is settled by the model alone: what the model
      metadata adds when it accounts for the field, an aborted restriction
      otherwise. */
  lemma UnhintedFieldByModel(env: Env, store: S.Store, model: Q.ModelName, sel: Selection, def: FieldDef)
    requires sel.Field? && def.hints.None?
    ensures OptimizeField(env, store, model, sel, def)
         == (var byName := OptimizeFieldByName(env, store, model, sel, def);
             if byName.1 then byName.0 else S.AbortOnlyOptimization(store))
  {
  }

  /** A name without separators is looked up as it is. */
  lemma SingleStepLookup(m: Model, name: string)
    requires Q.IsStep(name)
    ensures ModelFieldFromName(m, name)
         == if name in m.fields then Some(m.fields[name])
            else if name in m.related then Some(m.related[name]) else None
  {
    Q.FirstStepOfStep(name);
  }

  /** A foreign key selected by its column name (`color_id` for `color`) is
      that column: exactly one `only` and no join. Selected by its own name it
      is the relation, and is joined. */
  lemma ForeignKeyIdIsColumn(env: Env, store: S.Store, model: Q.ModelName, sel: Selection, def: FieldDef,
                             mf: ModelField)
    requires sel.Field?
    requires ModelFieldFromName(env.models(model), NameFromFieldDef(def)) == Some(mf)
    requires mf.isForeignKey && mf.relation.ToOne?
    ensures mf.attname == NameFromFieldDef(def) != mf.name ==>
              OptimizeFieldByName(env, store, model, sel, def) == (S.Only(store, mf.attname), true)
    ensures mf.name == NameFromFieldDef(def) ==>
              OptimizeFieldByName(env, store, model, sel, def)
              == (S.SelectRelated(store, mf.name,
                                  OptimizeGqlSelections(env, sel.selections, NamedType(def.fieldType), None)), true)
  {
  }

  /** A column field met for the first time at its level adds its column,
      and then whatever its hints add; without hints, exactly its column. */
  lemma ColumnFieldStep(env: Env, sel: Selection, t: TypeName, types: seq<TypeName>, store: S.Store,
                        seen: set<string>, model: Q.ModelName, def: FieldDef)
    requires sel.Field? && !IsRowsEnvelope(sel) && sel.name != "__typename" && sel.name !in seen
    requires FirstMatch(env, types, sel.name) == Some((model, def))
    requires PlainColumn(env.models(model), NameFromFieldDef(def))
    ensures Step(env, sel, t, types, store, seen)
         == (OptimizeFieldByHints(S.Only(store, NameFromFieldDef(def)), sel, def).0, seen + {sel.name})
    ensures def.hints.None? ==> Step(env, sel, t, types, store, seen) == (S.Only(store, def.name), seen + {sel.name})
  {
    FieldStepDispatch(env, sel, t, types, store, seen);
  }

  /** A to-one relation met for the first time at its level is joined with
      the plan built for its own selections against the relation's type, and
      then gets whatever its hints add. */
  lemma ToOneFieldStep(env: Env, sel: Selection, t: TypeName, types: seq<TypeName>, store: S.Store,
                       seen: set<string>, model: Q.ModelName, def: FieldDef, mf: ModelField)
    requires sel.Field? && !IsRowsEnvelope(sel) && sel.name != "__typename" && sel.name !in seen
    requires FirstMatch(env, types, sel.name) == Some((model, def))
    requires ModelFieldFromName(env.models(model), NameFromFieldDef(def)) == Some(mf)
    requires mf.relation.ToOne? && !IsForeignKeyId(mf, NameFromFieldDef(def))
    ensures var name := NameFromFieldDef(def);
            var joined := S.SelectRelated(store, name, OptimizeGqlSelections(env, sel.selections, NamedType(def.fieldType), None));
            Step(env, sel, t, types, store, seen) == (OptimizeFieldByHints(joined, sel, def).0, seen + {sel.name})
    ensures def.hints.None? ==>
              Step(env, sel, t, types, store, seen)
              == (S.SelectRelated(store, def.name, OptimizeGqlSelections(env, sel.selections, NamedType(def.fieldType), None)),
                  seen + {sel.name})
  {
    FieldStepDispatch(env, sel, t, types, store, seen);
  }

  /** A to-many relation met for the first time at its level is prefetched
      with the plan built for its own selections, restricted also to the
      foreign key back to the parent when the relation is the reverse side of
      one, and then gets whatever its hints add. */
  lemma ToManyFieldStep(env: Env, sel: Selection, t: TypeName, types: seq<TypeName>, store: S.Store,
                        seen: set<string>, model: Q.ModelName, def: FieldDef, mf: ModelField)
    requires sel.Field? && !IsRowsEnvelope(sel) && sel.name != "__typename" && sel.name !in seen
    requires FirstMatch(env, types, sel.name) == Some((model, def))
    requires ModelFieldFromName(env.models(model), NameFromFieldDef(def)) == Some(mf)
    requires mf.relation.ToMany? && !IsForeignKeyId(mf, NameFromFieldDef(def))
    ensures var child := OptimizeGqlSelections(env, sel.selections, NamedType(def.fieldType), None);
            var prefetched := S.PrefetchRelated(store, NameFromFieldDef(def), ReverseKeyed(child, mf.relation.reverseForeignKey),
                                                Q.Base(mf.relation.relatedModel));
            Step(env, sel, t, types, store, seen) == (OptimizeFieldByHints(prefetched, sel, def).0, seen + {sel.name})
    ensures def.hints.None? ==>
              var child := OptimizeGqlSelections(env, sel.selections, NamedType(def.fieldType), None);
              var fk := mf.relation.reverseForeignKey;
              (Step(env, sel, t, types, store, seen)
               == (S.PrefetchRelated(store, def.name, if fk.Some? then S.Only(child, fk.value) else child,
                                     Q.Base(mf.relation.relatedModel)),
                   seen + {sel.name}))
  {
    FieldStepDispatch(env, sel, t, types, store, seen);
  }

  /** A field met for the first time at its level whose name the model does
      not know gets exactly what its hints add, or aborts the restriction
      when it has none. */
  lemma UnknownFieldStep(env: Env, sel: Selection, t: TypeName, types: seq<TypeName>, store: S.Store,
                         seen: set<string>, model: Q.ModelName, def: FieldDef)
    requires sel.Field? && !IsRowsEnvelope(sel) && sel.name != "__typename" && sel.name !in seen
    requires FirstMatch(env, types, sel.name) == Some((model, def))
    requires ModelFieldFromName(env.models(model), NameFromFieldDef(def)).None?
    ensures def.hints.Some? ==>
              Step(env, sel, t, types, store, seen) == (OptimizeFieldByHints(store, sel, def).0, seen + {sel.name})
    ensures def.hints.None? ==>
              Step(env, sel, t, types, store, seen) == (S.AbortOnlyOptimization(store), seen + {sel.name})
  {
    FieldStepDispatch(env, sel, t, types, store, seen);
  }

  /** A `rows` envelope with sub-selections walks them into the same store
      against the level's type, once per possible type, and is never marked
      optimised. */
  lemma {:induction false} RowsWalkedOncePerType(
    env: Env, sel: Selection, t: TypeName, types: seq<TypeName>, store: S.Store, optimized: bool)
    requires IsRowsEnvelope(sel)
    ensures ForEachType(env, sel, t, types, store, optimized)
         == (WalkRepeatedly(env, sel.selections, t, store, |types|), optimized)
    decreases |types|
  {
    if |types| > 0 {
      RowsWalkedOncePerType(env, sel, t, types[1..],
                            OptimizeGqlSelections(env, sel.selections, t, Some(store)), optimized);
    }
  }

  // ---------------------------------------------------------------------------
  // The level loop

  /** Walking two runs of selections one after the other is walking their
      concatenation. */
  lemma {:induction false} WalkLevelAppend(
    env: Env, a: seq<Selection>, b: seq<Selection>, t: TypeName, types: seq<TypeName>,
    store: S.Store, seen: set<string>)
    ensures WalkLevel(env, a + b, t, types, store, seen)
         == (var r := WalkLevel(env, a, t, types, store, seen); WalkLevel(env, b, t, types, r.0, r.1))
    decreases |a|
  {
    if |a| == 0 {
      assert a + b == b;
    } else {
      assert (a + b)[0] == a[0];
      assert (a + b)[1..] == a[1..] + b;
      var r := Step(env, a[0], t, types, store, seen);
      WalkLevelAppend(env, a[1..], b, t, types, r.0, r.1);
    }
  }

  /** The names a level marks optimised are names of its fields. */
  lemma {:induction false} WalkLevelSeen(
    env: Env, sels: seq<Selection>, t: TypeName, types: seq<TypeName>, store: S.Store, seen: set<string>)
    ensures WalkLevel(env, sels, t, types, store, seen).1 <= seen + LevelNames(sels)
    decreases |sels|
  {
    if |sels| > 0 {
      var r := Step(env, sels[0], t, types, store, seen);
      WalkLevelSeen(env, sels[1..], t, types, r.0, r.1);
      LevelNamesCons(sels);
    }
  }

  lemma LevelNamesCons(sels: seq<Selection>)
    requires |sels| > 0
    ensures LevelNames(sels) == LevelNames(sels[1..]) + (if sels[0].Field? then {sels[0].name} else {})
  {
    var rest := sels[1..];
    forall x | x in LevelNames(sels)
      ensures x in LevelNames(rest) + (if sels[0].Field? then {sels[0].name} else {})
    {
      var i :| 0 <= i < |sels| && sels[i].Field? && sels[i].name == x;
      if i > 0 {
        assert rest[i - 1] == sels[i];
      }
    }
    forall x | x in LevelNames(rest) ensures x in LevelNames(sels) {
      var i :| 0 <= i < |rest| && rest[i].Field? && rest[i].name == x;
      assert sels[i + 1] == rest[i];
    }
    if sels[0].Field? {
      assert sels[0].name in LevelNames(sels);
    }
  }

  lemma LevelNamesAppend(a: seq<Selection>, b: seq<Selection>)
    ensures LevelNames(a + b) == LevelNames(a) + LevelNames(b)
  {
    var ab := a + b;
    forall x | x in LevelNames(ab) ensures x in LevelNames(a) + LevelNames(b) {
      var i :| 0 <= i < |ab| && ab[i].Field? && ab[i].name == x;
      if i < |a| {
        assert a[i] == ab[i];
      } else {
        assert b[i - |a|] == ab[i];
      }
    }
    forall x | x in LevelNames(a) ensures x in LevelNames(ab) {
      var i :| 0 <= i < |a| && a[i].Field? && a[i].name == x;
      assert ab[i] == a[i];
    }
    forall x | x in LevelNames(b) ensures x in LevelNames(ab) {
      var i :| 0 <= i < |b| && b[i].Field? && b[i].name == x;
      assert ab[|a| + i] == b[i];
    }
  }

  /** What a level does depends on the names already optimised only through
      the names of its own fields. */
  lemma {:induction false} WalkLevelSeenIrrelevant(
    env: Env, sels: seq<Selection>, t: TypeName, types: seq<TypeName>,
    store: S.Store, seen1: set<string>, seen2: set<string>)
    requires seen1 * LevelNames(sels) == seen2 * LevelNames(sels)
    ensures WalkLevel(env, sels, t, types, store, seen1).0 == WalkLevel(env, sels, t, types, store, seen2).0
    decreases |sels|
  {
    if |sels| > 0 {
      LevelNamesCons(sels);
      var sel := sels[0];
      var r1 := Step(env, sel, t, types, store, seen1);
      var r2 := Step(env, sel, t, types, store, seen2);
      var rest := LevelNames(sels[1..]);
      forall x | x in rest ensures x in seen1 <==> x in seen2 {
        assert x in LevelNames(sels);
        assert x in seen1 * LevelNames(sels) <==> x in seen2 * LevelNames(sels);
      }
      if sel.Field? && sel.name != "__typename" {
        assert sel.name in LevelNames(sels);
        assert sel.name in seen1 * LevelNames(sels) <==> sel.name in seen2 * LevelNames(sels);
        assert sel.name in seen1 <==> sel.name in seen2;
        var o := ForEachType(env, sel, t, types, store, sel.name in seen1);
        assert r1 == (o.0, if o.1 then seen1 + {sel.name} else seen1);
        assert r2 == (o.0, if o.1 then seen2 + {sel.name} else seen2);
      }
      assert r1.0 == r2.0;
      assert r1.1 - seen1 == r2.1 - seen2;
      forall x | x in rest ensures x in r1.1 <==> x in r2.1 {
        assert x in seen1 <==> x in seen2;
      }
      assert r1.1 * rest == r2.1 * rest;
      WalkLevelSeenIrrelevant(env, sels[1..], t, types, r1.0, r1.1, r2.1);
    }
  }

  // ---------------------------------------------------------------------------
  // Fragments, skipped selections, repeated fields

  /** A fragment spread adds to the store what its selections would add
      written in its place, provided its fields share no name with the fields
      around it.  Without that proviso the two differ: the spread is walked
      with its own record of optimised names (see `SpreadRepeatsPrefetch`). */
  lemma SpreadInlines(
    env: Env, pre: seq<Selection>, name: string, inner: seq<Selection>, post: seq<Selection>,
    t: TypeName, store: Option<S.Store>)
    requires name != "__typename"
    requires LevelNames(inner) !! LevelNames(pre) && LevelNames(inner) !! LevelNames(post)
    ensures OptimizeGqlSelections(env, pre + [FragmentSpread(name, inner)] + post, t, store)
         == OptimizeGqlSelections(env, pre + inner + post, t, store)
  {
    var start := store.GetOr(FreshStore(env));
    var types := env.possibleTypes(t);
    var spread := FragmentSpread(name, inner);
    var a := WalkLevel(env, pre, t, types, start, {});
    WalkLevelSeen(env, pre, t, types, start, {});
    // with the spread
    WalkLevelAppend(env, pre, [spread] + post, t, types, start, {});
    assert pre + [spread] + post == pre + ([spread] + post);
    assert ([spread] + post)[0] == spread && ([spread] + post)[1..] == post;
    var walked := OptimizeGqlSelections(env, inner, t, Some(a.0));
    // inlined
    WalkLevelAppend(env, pre, inner + post, t, types, start, {});
    assert pre + inner + post == pre + (inner + post);
    WalkLevelAppend(env, inner, post, t, types, a.0, a.1);
    var b := WalkLevel(env, inner, t, types, a.0, a.1);
    WalkLevelSeenIrrelevant(env, inner, t, types, a.0, a.1, {});
    assert walked == b.0;
    WalkLevelSeen(env, inner, t, types, a.0, a.1);
    WalkLevelSeenIrrelevant(env, post, t, types, b.0, b.1, a.1);
    LevelNamesAppend(pre, [spread] + post);
    LevelNamesAppend(pre, inner + post);
    LevelNamesAppend(inner, post);
  }

  /** Inline fragments and `__typename` contribute nothing to the store. */
  lemma SkippedSelectionsContributeNothing(env: Env, sels: seq<Selection>, t: TypeName, store: Option<S.Store>)
    ensures OptimizeGqlSelections(env, sels, t, store) == OptimizeGqlSelections(env, Relevant(sels), t, store)
  {
    var start := store.GetOr(FreshStore(env));
    WalkLevelRelevant(env, sels, t, env.possibleTypes(t), start, {});
  }

  lemma {:induction false} WalkLevelRelevant(
    env: Env, sels: seq<Selection>, t: TypeName, types: seq<TypeName>, store: S.Store, seen: set<string>)
    ensures WalkLevel(env, sels, t, types, store, seen) == WalkLevel(env, Relevant(sels), t, types, store, seen)
    decreases |sels|
  {
    if |sels| > 0 {
      var r := Step(env, sels[0], t, types, store, seen);
      WalkLevelRelevant(env, sels[1..], t, types, r.0, r.1);
      if !Skipped(sels[0]) {
        var rel := [sels[0]] + Relevant(sels[1..]);
        assert rel[0] == sels[0] && rel[1..] == Relevant(sels[1..]);
      }
    }
  }

  /** After a run of selections, a field name that occurs in the run has been
      optimised, or no possible type offers it. */
  lemma {:induction false} OccurredFieldsAreSettled(
    env: Env, sels: seq<Selection>, t: TypeName, types: seq<TypeName>,
    store: S.Store, seen: set<string>, i: int)
    requires 0 <= i < |sels|
    requires sels[i].Field? && !IsRowsEnvelope(sels[i]) && sels[i].name != "__typename"
    ensures sels[i].name in WalkLevel(env, sels, t, types, store, seen).1
         || FirstMatch(env, types, sels[i].name).None?
    decreases |sels|
  {
    var r := Step(env, sels[0], t, types, store, seen);
    if i == 0 {
      ForEachTypeDispatchesFirstMatch(env, sels[0], t, types, store, sels[0].name in seen);
      assert sels[0].name in r.1 || FirstMatch(env, types, sels[0].name).None?;
      var rest := WalkLevel(env, sels[1..], t, types, r.0, r.1);
      assert r.1 <= rest.1;
    } else {
      OccurredFieldsAreSettled(env, sels[1..], t, types, r.0, r.1, i - 1);
    }
  }

  /** Within one level a field name is optimised at most once: a later field
      of the same name adds nothing. */
  lemma RepeatedFieldIgnored(
    env: Env, pre: seq<Selection>, f: Selection, post: seq<Selection>, t: TypeName, store: Option<S.Store>)
    requires f.Field? && !IsRowsEnvelope(f)
    requires exists i :: 0 <= i < |pre| && pre[i].Field? && !IsRowsEnvelope(pre[i]) && pre[i].name == f.name
    ensures OptimizeGqlSelections(env, pre + [f] + post, t, store)
         == OptimizeGqlSelections(env, pre + post, t, store)
  {
    var start := store.GetOr(FreshStore(env));
    var types := env.possibleTypes(t);
    var i :| 0 <= i < |pre| && pre[i].Field? && !IsRowsEnvelope(pre[i]) && pre[i].name == f.name;
    var a := WalkLevel(env, pre, t, types, start, {});
    WalkLevelAppend(env, pre, [f] + post, t, types, start, {});
    assert pre + [f] + post == pre + ([f] + post);
    assert ([f] + post)[0] == f && ([f] + post)[1..] == post;
    WalkLevelAppend(env, pre, post, t, types, start, {});
    if f.name != "__typename" {
      OccurredFieldsAreSettled(env, pre, t, types, start, {}, i);
      ForEachTypeDispatchesFirstMatch(env, f, t, types, a.0, f.name in a.1);
      if f.name in a.1 {
        assert a.1 + {f.name} == a.1;
      }
    }
    assert Step(env, f, t, types, a.0, a.1) == a;
  }

  /** A hint-less field that the model reads as a plain column of the first
      possible type defining it. */
  predicate PlainColumnSelection(env: Env, types: seq<TypeName>, sel: Selection)
  {
    && sel.Field? && !IsRowsEnvelope(sel) && sel.name != "__typename"
    && match FirstMatch(env, types, sel.name)
       case None => false
       case Some((model, def)) => def.hints.None? && PlainColumn(env.models(model), def.name)
  }

  /** The columns of the first occurrence of each field name of a level, in
      order, leaving out the names in `seen`. */
  function FirstColumns(env: Env, types: seq<TypeName>, sels: seq<Selection>, seen: set<string>): seq<string>
    decreases |sels|
  {
    if |sels| == 0 then []
    else
      var sel := sels[0];
      if !sel.Field? || sel.name in seen || FirstMatch(env, types, sel.name).None? then
        FirstColumns(env, types, sels[1..], seen)
      else
        [FirstMatch(env, types, sel.name).value.1.name] + FirstColumns(env, types, sels[1..], seen + {sel.name})
  }

  /** `store` restricted further to `columns`; an aborted restriction stays
      aborted. */
  function Restricted(store: S.Store, columns: seq<string>): S.Store
  {
    store.(onlyList := if S.Disabled(store) then None else Some(store.onlyList.value + columns))
  }

  lemma RestrictedOnly(store: S.Store, column: string, columns: seq<string>)
    ensures Restricted(S.Only(store, column), columns) == Restricted(store, [column] + columns)
  {
    if !S.Disabled(store) {
      assert S.Only(store, column).onlyList.value + columns == store.onlyList.value + ([column] + columns);
    }
  }

  /** A level made only of plain columns joins and prefetches nothing: it
      restricts the store to the columns of its first occurrences, in order,
      and leaves an aborted restriction aborted. */
  lemma {:induction false} ColumnLevel(
    env: Env, sels: seq<Selection>, t: TypeName, types: seq<TypeName>, store: S.Store, seen: set<string>)
    requires forall i :: 0 <= i < |sels| ==> PlainColumnSelection(env, types, sels[i])
    ensures WalkLevel(env, sels, t, types, store, seen).0 == Restricted(store, FirstColumns(env, types, sels, seen))
    decreases |sels|
  {
    if |sels| == 0 {
      assert store.onlyList.Some? ==> store.onlyList.value + [] == store.onlyList.value;
    } else {
      var sel := sels[0];
      assert PlainColumnSelection(env, types, sel);
      assert forall i :: 0 <= i < |sels[1..]| ==> PlainColumnSelection(env, types, sels[1..][i]) by {
        forall i | 0 <= i < |sels[1..]| ensures PlainColumnSelection(env, types, sels[1..][i]) {
          assert sels[1..][i] == sels[i + 1];
        }
      }
      var a := Step(env, sel, t, types, store, seen);
      assert WalkLevel(env, sels, t, types, store, seen) == WalkLevel(env, sels[1..], t, types, a.0, a.1);
      if sel.name in seen {
        FieldStepDispatch(env, sel, t, types, store, seen);
        ColumnLevel(env, sels[1..], t, types, store, seen);
      } else {
        var md := FirstMatch(env, types, sel.name).value;
        ColumnFieldStep(env, sel, t, types, store, seen, md.0, md.1);
        ColumnLevel(env, sels[1..], t, types, a.0, a.1);
        RestrictedOnly(store, md.1.name, FirstColumns(env, types, sels[1..], a.1));
      }
    }
  }

  // ---------------------------------------------------------------------------
  // Aborting the restriction

  /** A field that neither the model nor a hint accounts for aborts the "only"
      optimisation of its level, and nothing later in the level brings it
      back, unless the store keeps its restriction. */
  lemma UnrecognisedFieldAbortsRestriction(
    env: Env, pre: seq<Selection>, f: Selection, post: seq<Selection>, t: TypeName, store: Option<S.Store>)
    requires f.Field? && !IsRowsEnvelope(f) && f.name != "__typename"
    requires f.name !in LevelNames(pre)
    requires FirstMatch(env, env.possibleTypes(t), f.name).Some?
    requires !Recognised(env.models(FirstMatch(env, env.possibleTypes(t), f.name).value.0),
                         FirstMatch(env, env.possibleTypes(t), f.name).value.1)
    requires !store.GetOr(FreshStore(env)).disableAbortOnly
    ensures S.Disabled(OptimizeGqlSelections(env, pre + [f] + post, t, store))
  {
    var start := store.GetOr(FreshStore(env));
    var types := env.possibleTypes(t);
    var a := WalkLevel(env, pre, t, types, start, {});
    WalkLevelSeen(env, pre, t, types, start, {});
    WalkLevelAppend(env, pre, [f] + post, t, types, start, {});
    assert pre + [f] + post == pre + ([f] + post);
    assert ([f] + post)[0] == f && ([f] + post)[1..] == post;
    ForEachTypeDispatchesFirstMatch(env, f, t, types, a.0, false);
    var md := FirstMatch(env, types, f.name).value;
    var b := Step(env, f, t, types, a.0, a.1);
    assert b.0 == OptimizeField(env, a.0, md.0, f, md.1);
    assert S.Disabled(b.0);
  }

  // ---------------------------------------------------------------------------
  // Keeping the restriction

  /** A field that the model resolves to a to-one relation joined by name. */
  predicate JoinsToOne(m: Model, def: FieldDef)
  {
    var name := NameFromFieldDef(def);
    var mf := ModelFieldFromName(m, name);
    mf.Some? && !IsForeignKeyId(mf.value, name) && mf.value.relation.ToOne?
  }

  /** Every field of a selection tree that the walker optimises into the
      level's store is accounted for by the model or by a hint: the fields of
      the level itself, of its fragment spreads and `rows` envelopes, and of
      its to-one relations, whose columns join the level's restriction. A
      to-many relation's sub-selections only restrict its own prefetch. */
  predicate AllRecognised(env: Env, sels: seq<Selection>, t: TypeName)
    decreases sels, 1
  {
    forall i :: 0 <= i < |sels| ==> SelectionRecognised(env, sels[i], t)
  }

  predicate SelectionRecognised(env: Env, sel: Selection, t: TypeName)
    decreases sel, 0
  {
    match sel
    case InlineFragment(_, _) => true
    case FragmentSpread(name, inner) => name == "__typename" || AllRecognised(env, inner, t)
    case Field(name, _, inner) =>
      if name == "__typename" then true
      else if IsRowsEnvelope(sel) then AllRecognised(env, inner, t)
      else match FirstMatch(env, env.possibleTypes(t), name)
        case None => true
        case Some((model, def)) =>
          && Recognised(env.models(model), def)
          && (JoinsToOne(env.models(model), def) ==> AllRecognised(env, inner, NamedType(def.fieldType)))
  }

  /** The converse of `UnrecognisedFieldAbortsRestriction`: when every field
      of the tree is accounted for, the walk keeps the restriction of a store
      that has one. */
  lemma {:induction false} RecognisedFieldsKeepRestriction(
    env: Env, sels: seq<Selection>, t: TypeName, store: Option<S.Store>)
    requires !S.Disabled(store.GetOr(FreshStore(env)))
    requires AllRecognised(env, sels, t)
    ensures !S.Disabled(OptimizeGqlSelections(env, sels, t, store))
    decreases sels, 3
  {
    if |sels| > 0 {
      RecognisedLevelKeepsRestriction(env, sels, t, store.GetOr(FreshStore(env)), {});
    }
  }

  lemma {:induction false} RecognisedLevelKeepsRestriction(
    env: Env, sels: seq<Selection>, t: TypeName, store: S.Store, seen: set<string>)
    requires !S.Disabled(store) && AllRecognised(env, sels, t)
    ensures !S.Disabled(WalkLevel(env, sels, t, env.possibleTypes(t), store, seen).0)
    decreases sels, 2
  {
    if |sels| > 0 {
      var r := Step(env, sels[0], t, env.possibleTypes(t), store, seen);
      RecognisedStepKeepsRestriction(env, sels[0], t, store, seen);
      assert AllRecognised(env, sels[1..], t) by {
        forall i | 0 <= i < |sels| - 1 ensures SelectionRecognised(env, sels[1..][i], t) {
          assert sels[1..][i] == sels[i + 1];
        }
      }
      RecognisedLevelKeepsRestriction(env, sels[1..], t, r.0, r.1);
    }
  }

  lemma {:induction false} RecognisedStepKeepsRestriction(
    env: Env, sel: Selection, t: TypeName, store: S.Store, seen: set<string>)
    requires !S.Disabled(store) && SelectionRecognised(env, sel, t)
    ensures !S.Disabled(Step(env, sel, t, env.possibleTypes(t), store, seen).0)
    decreases sel, 1
  {
    var types := env.possibleTypes(t);
    match sel
    case InlineFragment(_, _) =>
    case FragmentSpread(name, inner) =>
      if name != "__typename" {
        RecognisedFieldsKeepRestriction(env, inner, t, Some(store));
      }
    case Field(name, _, inner) =>
      if name == "__typename" {
      } else if IsRowsEnvelope(sel) {
        RowsWalkedOncePerType(env, sel, t, types, store, name in seen);
        RecognisedRepeatedlyKeepsRestriction(env, inner, t, store, |types|);
      } else {
        FieldStepDispatch(env, sel, t, types, store, seen);
        if name !in seen && FirstMatch(env, types, name).Some? {
          var md := FirstMatch(env, types, name).value;
          RecognisedFieldKeepsRestriction(env, store, md.0, sel, md.1);
        }
      }
  }

  lemma {:induction false} RecognisedRepeatedlyKeepsRestriction(
    env: Env, sels: seq<Selection>, t: TypeName, store: S.Store, k: nat)
    requires !S.Disabled(store) && AllRecognised(env, sels, t)
    ensures !S.Disabled(WalkRepeatedly(env, sels, t, store, k))
    decreases sels, 4, k
  {
    if k > 0 {
      RecognisedFieldsKeepRestriction(env, sels, t, Some(store));
      RecognisedRepeatedlyKeepsRestriction(env, sels, t, OptimizeGqlSelections(env, sels, t, Some(store)), k - 1);
    }
  }

  /** A recognised field keeps the restriction; a to-one relation needs its
      own selections recognised too, since its columns join the parent's. */
  lemma {:induction false} RecognisedFieldKeepsRestriction(
    env: Env, store: S.Store, model: Q.ModelName, sel: Selection, def: FieldDef)
    requires sel.Field? && !S.Disabled(store)
    requires Recognised(env.models(model), def)
    requires JoinsToOne(env.models(model), def) ==> AllRecognised(env, sel.selections, NamedType(def.fieldType))
    ensures !S.Disabled(OptimizeField(env, store, model, sel, def))
    decreases sel, 0
  {
    if JoinsToOne(env.models(model), def) {
      RecognisedFieldsKeepRestriction(env, sel.selections, NamedType(def.fieldType), None);
    }
    var byName := OptimizeFieldByName(env, store, model, sel, def);
    assert !S.Disabled(byName.0);
  }
}
