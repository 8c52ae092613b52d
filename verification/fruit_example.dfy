/** The fruit/colour schema of the repository's tests, and the plans the
    walker builds for the queries those tests send.

    `Fruit(name, color -> Color)` with `Color.fruits` as the reverse relation;
    the Strawberry types expose `id`, `name` and the relation on each side.
    Two fields are added to show the other outcomes of a field: `Color.extra`,
    known only through its hints, and `Fruit.ripeness`, a resolver field with
    neither a model field nor hints. */
module FruitExample {
  import opened Wrappers
  import Q = Queries
  import H = Hints
  import S = OptimizerStore
  import opened Schema
  import opened Optimizer
  import opened OptimizerProps

  const IdColumn := ModelField("id", "id", false, Column)
  const NameColumn := ModelField("name", "name", false, Column)
  /** `Fruit.color`, a nullable `ForeignKey` with attname `color_id`. */
  const ColorKey := ModelField("color", "color_id", true, ToOne)
  /** `Color.fruits`, the reverse side of `Fruit.color` (a `ManyToOneRel`). */
  const FruitsRel := ModelField("fruits", "fruits", false, ToMany("Fruit", Some("color")))

  const FruitModel := Model(map["id" := IdColumn, "name" := NameColumn, "color" := ColorKey, "color_id" := ColorKey], map[])
  const ColorModel := Model(map["id" := IdColumn, "name" := NameColumn, "fruits" := FruitsRel], map[])

  function Models(m: Q.ModelName): Model
  {
    if m == "Fruit" then FruitModel else if m == "Color" then ColorModel else Model(map[], map[])
  }

  /** A field computed by a resolver that only prefetches, through hints. */
  const Extra := FieldDef("extra", Named("String"),
                          Some(H.MakeHints(prefetchRelated := H.Static(H.Items(["a", "b"])))))

  /** A field computed by a resolver, with no model field and no hints. */
  const Ripeness := FieldDef("ripeness", Named("Float"), None)

  function ObjectTypes(t: TypeName): ObjectType
  {
    if t == "Fruit" then
      ObjectType([FieldDef("id", Named("ID"), None), FieldDef("name", Named("String"), None),
                  FieldDef("color", Named("Color"), None), Ripeness], Some("Fruit"))
    else if t == "Color" then
      ObjectType([FieldDef("id", Named("ID"), None), FieldDef("name", Named("String"), None),
                  FieldDef("fruits", ListOf(NonNull(Named("Fruit"))), None), Extra], Some("Color"))
    else ObjectType([], None)
  }

  function Single(t: TypeName): seq<TypeName>
  {
    [t]
  }

  /** The field names are single words, so camel-casing leaves them as they are. */
  function SameName(s: string): string
  {
    s
  }

  const FruitEnv := Env(ObjectTypes, Single, Models, SameName, false)

  function Leaf(name: string): Selection
  {
    Field(name, [], [])
  }

  /** `fruits { id name color { id name } }` */
  const FruitSelections := [Leaf("id"), Leaf("name"), Field("color", [], [Leaf("id"), Leaf("name")])]

  /** `colors { id name fruits { id name } }` */
  const ColorSelections := [Leaf("id"), Leaf("name"), Field("fruits", [], [Leaf("id"), Leaf("name")])]

  /** The field names hold no `__` separator, so each is a single step. */
  lemma StepNames()
    ensures Q.IsStep("id") && Q.IsStep("name") && Q.IsStep("color") && Q.IsStep("fruits")
    ensures Q.IsStep("extra") && Q.IsStep("ripeness")
  {
  }

  /** The first field definition of a type named `name`. */
  lemma FindsField(t: TypeName, i: nat, name: string)
    requires t == "Fruit" || t == "Color"
    requires i < |ObjectTypes(t).fields| && ObjectTypes(t).fields[i].name == name
    requires forall j :: 0 <= j < i ==> ObjectTypes(t).fields[j].name != name
    ensures FirstMatch(FruitEnv, [t], name) == Some((t, ObjectTypes(t).fields[i]))
  {
    var fields := ObjectTypes(t).fields;
    var r := FindFieldDef(SameName, fields, name);
    assert forall j :: 0 <= j < |fields| ==> SameName(fields[j].name) == fields[j].name;
    var k :| 0 <= k < |fields| && fields[k] == r.value && SameName(fields[k].name) == name
             && forall j :: 0 <= j < k ==> SameName(fields[j].name) != name;
    assert k == i;
  }

  /** `Fruit.color` is the fruit type's third field and the model's foreign key. */
  lemma ColorFound()
    ensures FirstMatch(FruitEnv, ["Fruit"], "color") == Some(("Fruit", ObjectTypes("Fruit").fields[2]))
    ensures ModelFieldFromName(FruitModel, "color") == Some(ColorKey)
  {
    FindsField("Fruit", 2, "color");
    StepNames();
    SingleStepLookup(FruitModel, "color");
  }

  /** `Color.fruits` is the colour type's third field and the model's reverse relation. */
  lemma FruitsFound()
    ensures FirstMatch(FruitEnv, ["Color"], "fruits") == Some(("Color", ObjectTypes("Color").fields[2]))
    ensures ModelFieldFromName(ColorModel, "fruits") == Some(FruitsRel)
  {
    FindsField("Color", 2, "fruits");
    StepNames();
    SingleStepLookup(ColorModel, "fruits");
  }

  /** `Color.extra` is found on the type and not on the model. */
  lemma ExtraFound()
    ensures FirstMatch(FruitEnv, ["Color"], "extra") == Some(("Color", Extra))
    ensures ModelFieldFromName(ColorModel, "extra") == None
  {
    FindsField("Color", 3, "extra");
    StepNames();
    SingleStepLookup(ColorModel, "extra");
  }

  /** `Fruit.ripeness` is found on the type and not on the model. */
  lemma RipenessFound()
    ensures FirstMatch(FruitEnv, ["Fruit"], "ripeness") == Some(("Fruit", Ripeness))
    ensures ModelFieldFromName(FruitModel, "ripeness") == None
  {
    FindsField("Fruit", 3, "ripeness");
    StepNames();
    SingleStepLookup(FruitModel, "ripeness");
  }

  /** `name` is met first among the fields of `t` as a hint-less plain column. */
  predicate ColumnField(t: TypeName, name: string)
  {
    var m := FirstMatch(FruitEnv, [t], name);
    && name != "__typename" && name != "rows"
    && m.Some? && m.value.0 == t && m.value.1.hints.None? && m.value.1.name == name
    && PlainColumn(Models(t), name)
  }

  /** `id` and `name` are plain columns of both types. */
  lemma ColumnFields(t: TypeName, name: string)
    requires t == "Fruit" || t == "Color"
    requires name == "id" || name == "name"
    ensures ColumnField(t, name)
  {
    var i := if name == "id" then 0 else 1;
    FindsField(t, i, name);
    StepNames();
    SingleStepLookup(Models(t), name);
  }

  /** A selected column adds that column. */
  lemma ColumnStep(t: TypeName, name: string, store: S.Store, seen: set<string>)
    requires ColumnField(t, name) && name !in seen
    ensures Step(FruitEnv, Leaf(name), t, [t], store, seen) == (S.Only(store, name), seen + {name})
  {
    ColumnFieldStep(FruitEnv, Leaf(name), t, [t], store, seen, t, FirstMatch(FruitEnv, [t], name).value.1);
  }

  /** A level walk begins with its first selection. */
  lemma WalkLevelCons(env: Env, sel: Selection, rest: seq<Selection>, t: TypeName, types: seq<TypeName>,
                      store: S.Store, seen: set<string>)
    ensures WalkLevel(env, [sel] + rest, t, types, store, seen)
         == (var a := Step(env, sel, t, types, store, seen); WalkLevel(env, rest, t, types, a.0, a.1))
  {
    assert ([sel] + rest)[0] == sel && ([sel] + rest)[1..] == rest;
  }

  /** Two selections in front of the rest of a level. */
  lemma ConsPair<T>(a: T, b: T, rest: seq<T>)
    ensures [a] + ([b] + rest) == [a, b] + rest
  {
  }

  /** The last selection of a level. */
  lemma LastStep(env: Env, sel: Selection, t: TypeName, types: seq<TypeName>, store: S.Store, seen: set<string>)
    ensures WalkLevel(env, [sel], t, types, store, seen).0 == Step(env, sel, t, types, store, seen).0
  {
    WalkLevelCons(env, sel, [], t, types, store, seen);
    assert [sel] + [] == [sel];
  }

  /** The store `{ id }` builds. */
  const IdStore := S.Store([], [], Some(["id"]), false)

  /** `id` at the head of a level restricts to that column. */
  lemma IdLevel(t: TypeName, rest: seq<Selection>)
    requires ColumnField(t, "id")
    ensures WalkLevel(FruitEnv, [Leaf("id")] + rest, t, [t], FreshStore(FruitEnv), {})
         == WalkLevel(FruitEnv, rest, t, [t], IdStore, {"id"})
  {
    var start := FreshStore(FruitEnv);
    ColumnStep(t, "id", start, {});
    assert [] + ["id"] == ["id"] && {} + {"id"} == {"id"};
    WalkLevelCons(FruitEnv, Leaf("id"), rest, t, [t], start, {});
  }

  /** The store `{ id name }` builds. */
  const IdNameStore := S.Store([], [], Some(["id", "name"]), false)

  /** `id name` at the head of a level restricts to those two columns. */
  lemma IdNameLevel(t: TypeName, rest: seq<Selection>)
    requires ColumnField(t, "id") && ColumnField(t, "name")
    ensures WalkLevel(FruitEnv, [Leaf("id"), Leaf("name")] + rest, t, [t], FreshStore(FruitEnv), {})
         == WalkLevel(FruitEnv, rest, t, [t], IdNameStore, {"id", "name"})
  {
    assert WalkLevel(FruitEnv, [Leaf("id"), Leaf("name")] + rest, t, [t], FreshStore(FruitEnv), {})
        == WalkLevel(FruitEnv, [Leaf("name")] + rest, t, [t], IdStore, {"id"}) by {
      IdLevel(t, [Leaf("name")] + rest);
      ConsPair(Leaf("id"), Leaf("name"), rest);
    }
    assert Step(FruitEnv, Leaf("name"), t, [t], IdStore, {"id"}) == (IdNameStore, {"id", "name"}) by {
      ColumnStep(t, "name", IdStore, {"id"});
      assert ["id"] + ["name"] == ["id", "name"] && {"id"} + {"name"} == {"id", "name"};
    }
    WalkLevelCons(FruitEnv, Leaf("name"), rest, t, [t], IdStore, {"id"});
  }

  /** `{ id name }` restricts to those two columns and loads nothing. */
  lemma IdAndName(t: TypeName)
    requires ColumnField(t, "id") && ColumnField(t, "name")
    ensures OptimizeGqlSelections(FruitEnv, [Leaf("id"), Leaf("name")], t, None) == IdNameStore
  {
    IdNameLevel(t, []);
    assert [Leaf("id"), Leaf("name")] + [] == [Leaf("id"), Leaf("name")];
    assert FruitEnv.possibleTypes(t) == [t];
  }

  const ColorField := Field("color", [], [Leaf("id"), Leaf("name")])
  const FruitsField := Field("fruits", [], [Leaf("id"), Leaf("name")])

  /** `color { id name }` on a fruit joins the colour and restricts to its
      columns through the relation. */
  lemma ColorStep()
    ensures Step(FruitEnv, ColorField, "Fruit", ["Fruit"], IdNameStore, {"id", "name"}).0
         == S.SelectRelated(IdNameStore, "color", IdNameStore)
  {
    var def := ObjectTypes("Fruit").fields[2];
    assert def.name == "color" && NamedType(def.fieldType) == "Color";
    ColorFound();
    ToOneFieldStep(FruitEnv, ColorField, "Fruit", ["Fruit"], IdNameStore, {"id", "name"},
                   "Fruit", def, ColorKey);
    var child := OptimizeGqlSelections(FruitEnv, ColorField.selections, NamedType(def.fieldType), None);
    assert child == IdNameStore by {
      ColumnFields("Color", "id");
      ColumnFields("Color", "name");
      IdAndName("Color");
    }
  }

  /** `fruits { id name }` on a colour prefetches the fruits, restricted to
      their columns and the foreign key back to the colour. */
  lemma FruitsStep()
    ensures Step(FruitEnv, FruitsField, "Color", ["Color"], IdNameStore, {"id", "name"}).0
         == S.PrefetchRelated(IdNameStore, "fruits", S.Only(IdNameStore, "color"), Q.Base("Fruit"))
  {
    var def := ObjectTypes("Color").fields[2];
    assert def.name == "fruits" && NamedType(def.fieldType) == "Fruit";
    FruitsFound();
    ToManyFieldStep(FruitEnv, FruitsField, "Color", ["Color"], IdNameStore, {"id", "name"},
                    "Color", def, FruitsRel);
    var child := OptimizeGqlSelections(FruitEnv, FruitsField.selections, NamedType(def.fieldType), None);
    assert child == IdNameStore by {
      ColumnFields("Fruit", "id");
      ColumnFields("Fruit", "name");
      IdAndName("Fruit");
    }
  }

  /** The plan `fruits { id name color { id name } }` builds. */
  const FruitsPlan := S.Store(["color"], [], Some(["id", "name", "color__id", "color__name"]), false)

  /** Joining `{ id name }` under `color` re-roots its columns. */
  lemma ColorJoined()
    ensures S.SelectRelated(IdNameStore, "color", IdNameStore) == FruitsPlan
  {
    assert Q.UnderEach("color", ["id", "name"]) == ["color__id", "color__name"] by {
      var u := Q.UnderEach("color", ["id", "name"]);
      assert u[0] == "color" + "__" + "id" == "color__id";
      assert u[1] == "color" + "__" + "name" == "color__name";
    }
    assert ["id", "name"] + ["color__id", "color__name"] == ["id", "name", "color__id", "color__name"];
    assert Q.AddPrefixEach("color", []) == [];
  }

  /** The fruits level walks `id` and `name` first. */
  lemma FruitsHead()
    ensures WalkLevel(FruitEnv, FruitSelections, "Fruit", ["Fruit"], FreshStore(FruitEnv), {})
         == WalkLevel(FruitEnv, [ColorField], "Fruit", ["Fruit"], IdNameStore, {"id", "name"})
  {
    ColumnFields("Fruit", "id");
    ColumnFields("Fruit", "name");
    IdNameLevel("Fruit", [ColorField]);
    assert FruitSelections == [Leaf("id"), Leaf("name")] + [ColorField];
  }

  /** It ends with `color`, joined under the fruit's columns. */
  lemma FruitsTail()
    ensures WalkLevel(FruitEnv, [ColorField], "Fruit", ["Fruit"], IdNameStore, {"id", "name"}).0 == FruitsPlan
  {
    ColorStep();
    LastStep(FruitEnv, ColorField, "Fruit", ["Fruit"], IdNameStore, {"id", "name"});
    ColorJoined();
  }

  /** The fruits level walks `id`, `name` and then `color`. */
  lemma FruitsLevel()
    ensures OptimizeGqlSelections(FruitEnv, FruitSelections, "Fruit", None) == FruitsPlan
  {
    FruitsHead();
    FruitsTail();
    assert FruitEnv.possibleTypes("Fruit") == ["Fruit"];
  }

  /** The colour of each fruit is joined, and the columns are restricted to
      those selected, through the relation for the colour's. */
  lemma OptimizedFruitsPlan()
    ensures Optimize(FruitEnv, Q.Base("Fruit"), FruitSelections, "Fruit")
         == Q.Only(Q.SelectRel(Q.Base("Fruit"), ["color"]), ["id", "name", "color__id", "color__name"])
  {
    FruitsLevel();
  }

  /** The prefetch the colours plan holds. */
  const FruitsLookup := Q.Prefetch("fruits", Q.Only(Q.Base("Fruit"), ["id", "name", "color"]))

  /** The plan `colors { id name fruits { id name } }` builds. */
  const ColorsPlan := S.Store([], [FruitsLookup], Some(["id", "name"]), false)

  /** Prefetching `{ id name }` plus the foreign key under `fruits`. */
  lemma FruitsPrefetched()
    ensures S.PrefetchRelated(IdNameStore, "fruits", S.Only(IdNameStore, "color"), Q.Base("Fruit")) == ColorsPlan
  {
    var child := S.Only(IdNameStore, "color");
    assert ["id", "name"] + ["color"] == ["id", "name", "color"];
    assert child == S.Store([], [], Some(["id", "name", "color"]), false);
    assert S.OptimizeQueryset(child, Q.Base("Fruit")) == Q.Only(Q.Base("Fruit"), ["id", "name", "color"]);
    assert [] + [FruitsLookup] == [FruitsLookup];
  }

  /** The colours level walks `id` and `name` first. */
  lemma ColorsHead()
    ensures WalkLevel(FruitEnv, ColorSelections, "Color", ["Color"], FreshStore(FruitEnv), {})
         == WalkLevel(FruitEnv, [FruitsField], "Color", ["Color"], IdNameStore, {"id", "name"})
  {
    ColumnFields("Color", "id");
    ColumnFields("Color", "name");
    IdNameLevel("Color", [FruitsField]);
    assert ColorSelections == [Leaf("id"), Leaf("name")] + [FruitsField];
  }

  /** It ends with `fruits`, prefetched beside the colour's columns. */
  lemma ColorsTail()
    ensures WalkLevel(FruitEnv, [FruitsField], "Color", ["Color"], IdNameStore, {"id", "name"}).0 == ColorsPlan
  {
    FruitsStep();
    LastStep(FruitEnv, FruitsField, "Color", ["Color"], IdNameStore, {"id", "name"});
    FruitsPrefetched();
  }

  /** The colours level walks `id`, `name` and then `fruits`. */
  lemma ColorsLevel()
    ensures OptimizeGqlSelections(FruitEnv, ColorSelections, "Color", None) == ColorsPlan
  {
    ColorsHead();
    ColorsTail();
    assert FruitEnv.possibleTypes("Color") == ["Color"];
  }

  /** The fruits of each colour are prefetched with a queryset restricted to
      the selected columns plus the foreign key back to the colour. */
  lemma OptimizedColorsPlan()
    ensures Optimize(FruitEnv, Q.Base("Color"), ColorSelections, "Color")
         == Q.Only(Q.PrefetchRel(Q.Base("Color"),
                                 [Q.Prefetch("fruits", Q.Only(Q.Base("Fruit"), ["id", "name", "color"]))]),
                   ["id", "name"])
  {
    ColorsLevel();
    assert S.OptimizeQueryset(ColorsPlan, Q.Base("Color"))
        == Q.Only(Q.PrefetchRel(Q.Base("Color"), [FruitsLookup]), ["id", "name"]);
  }

  /** A fragment spread alone is optimised like its selections. */
  lemma FruitFragmentPlan()
    ensures Optimize(FruitEnv, Q.Base("Fruit"), [FragmentSpread("fruit", FruitSelections)], "Fruit")
         == Q.Only(Q.SelectRel(Q.Base("Fruit"), ["color"]), ["id", "name", "color__id", "color__name"])
  {
    SpreadInlines(FruitEnv, [], "fruit", FruitSelections, [], "Fruit", None);
    assert [] + [FragmentSpread("fruit", FruitSelections)] + [] == [FragmentSpread("fruit", FruitSelections)];
    assert [] + FruitSelections + [] == FruitSelections;
    OptimizedFruitsPlan();
  }

  /** An inline fragment is passed over, so the queryset is left as it is. */
  lemma InlineFragmentNotOptimised()
    ensures Optimize(FruitEnv, Q.Base("Fruit"), [InlineFragment("Fruit", FruitSelections)], "Fruit")
         == Q.Base("Fruit")
  {
    var env := FruitEnv;
    var inline := InlineFragment("Fruit", FruitSelections);
    assert WalkLevel(env, [inline], "Fruit", ["Fruit"], FreshStore(env), {}).0 == FreshStore(env) by {
      WalkLevelCons(env, inline, [], "Fruit", ["Fruit"], FreshStore(env), {});
      assert [inline] + [] == [inline];
    }
    assert env.possibleTypes("Fruit") == ["Fruit"];
    S.InitRendersNothing(false, Q.Base("Fruit"));
  }

  /** `extra` on a colour appends its hinted prefetches. */
  lemma ExtraStep()
    ensures Step(FruitEnv, Leaf("extra"), "Color", ["Color"], IdStore, {"id"}).0
         == S.Store([], [Q.Name("a"), Q.Name("b")], Some(["id"]), false)
  {
    ExtraFound();
    assert NameFromFieldDef(Extra) == "extra";
    UnknownFieldStep(FruitEnv, Leaf("extra"), "Color", ["Color"], IdStore, {"id"}, "Color", Extra);
    ExtraHinted();
  }

  /** The hints of `extra` prefetch `a` and `b` and add no join or column. */
  lemma ExtraHinted()
    ensures OptimizeFieldByHints(IdStore, Leaf("extra"), Extra).0
         == S.Store([], [Q.Name("a"), Q.Name("b")], Some(["id"]), false)
  {
    var h := Extra.hints.value;
    assert HintItems(h.selectRelated([])) == [];
    assert HintItems(h.prefetchRelated([])) == ["a", "b"];
    assert HintItems(h.only([])) == [];
    assert NameLookups(["a", "b"]) == [Q.Name("a"), Q.Name("b")];
    assert [] + [Q.Name("a"), Q.Name("b")] == [Q.Name("a"), Q.Name("b")];
    assert ["id"] + [] == ["id"];
  }

  /** A field known only through hints adds its hinted prefetches as bare
      names and keeps the column restriction. */
  lemma HintedFieldKeepsRestriction()
    ensures OptimizeGqlSelections(FruitEnv, [Leaf("id"), Leaf("extra")], "Color", None)
         == S.Store([], [Q.Name("a"), Q.Name("b")], Some(["id"]), false)
  {
    ColumnFields("Color", "id");
    IdLevel("Color", [Leaf("extra")]);
    assert [Leaf("id")] + [Leaf("extra")] == [Leaf("id"), Leaf("extra")];
    assert FruitEnv.possibleTypes("Color") == ["Color"];
    LastStep(FruitEnv, Leaf("extra"), "Color", ["Color"], IdStore, {"id"});
    ExtraStep();
  }

  /** `ripeness` on a fruit is unknown to the model and has no hints. */
  lemma RipenessStep()
    ensures S.Disabled(Step(FruitEnv, Leaf("ripeness"), "Fruit", ["Fruit"], IdStore, {"id"}).0)
  {
    RipenessFound();
    UnknownFieldStep(FruitEnv, Leaf("ripeness"), "Fruit", ["Fruit"], IdStore, {"id"}, "Fruit", Ripeness);
  }

  /** A field outside the model and without hints aborts the restriction. */
  lemma UnknownFieldAbortsRestriction()
    ensures S.Disabled(OptimizeGqlSelections(FruitEnv, [Leaf("id"), Leaf("ripeness")], "Fruit", None))
  {
    ColumnFields("Fruit", "id");
    IdLevel("Fruit", [Leaf("ripeness")]);
    assert [Leaf("id")] + [Leaf("ripeness")] == [Leaf("id"), Leaf("ripeness")];
    assert FruitEnv.possibleTypes("Fruit") == ["Fruit"];
    LastStep(FruitEnv, Leaf("ripeness"), "Fruit", ["Fruit"], IdStore, {"id"});
    RipenessStep();
  }

  const FruitsId := Field("fruits", [], [Leaf("id")])
  const FruitsName := Field("fruits", [], [Leaf("name")])

  /** `colors { fruits { id } ...F }` with `fragment F on Color { fruits { name } }`. */
  const SpreadFruits := [FruitsId, FragmentSpread("F", [FruitsName])]

  /** The same selections with the fragment written out in place. */
  const InlinedFruits := [FruitsId, FruitsName]

  /** `{ id }` or `{ name }` on a fruit keeps a column restriction. */
  lemma OneColumnRestricts(name: string)
    requires ColumnField("Fruit", name)
    ensures OptimizeGqlSelections(FruitEnv, [Leaf(name)], "Fruit", None).onlyList.Some?
  {
    var env := FruitEnv;
    ColumnStep("Fruit", name, FreshStore(env), {});
    LastStep(env, Leaf(name), "Fruit", ["Fruit"], FreshStore(env), {});
    assert env.possibleTypes("Fruit") == ["Fruit"];
  }

  /** `fruits { ... }` on a colour, not yet optimised at its level, adds one
      prefetch. */
  lemma FruitsAddsOnePrefetch(f: Selection, store: S.Store, seen: set<string>)
    requires f == FruitsId || f == FruitsName
    requires "fruits" !in seen
    ensures var r := Step(FruitEnv, f, "Color", ["Color"], store, seen);
            |r.0.prefetchList| == |store.prefetchList| + 1 && r.1 == seen + {"fruits"}
  {
    var def := ObjectTypes("Color").fields[2];
    var child := OptimizeGqlSelections(FruitEnv, f.selections, NamedType(def.fieldType), None);
    var c := S.Only(child, "color");
    assert S.HasColumns(c) by {
      assert NamedType(def.fieldType) == "Fruit";
      if f == FruitsId {
        assert f.selections == [Leaf("id")];
        ColumnFields("Fruit", "id");
        OneColumnRestricts("id");
      } else {
        assert f.selections == [Leaf("name")];
        ColumnFields("Fruit", "name");
        OneColumnRestricts("name");
      }
    }
    assert Step(FruitEnv, f, "Color", ["Color"], store, seen)
        == (S.PrefetchRelated(store, "fruits", c, Q.Base("Fruit")), seen + {"fruits"}) by {
      assert def.name == "fruits" && NamedType(def.fieldType) == "Fruit";
      FruitsFound();
      ToManyFieldStep(FruitEnv, f, "Color", ["Color"], store, seen, "Color", def, FruitsRel);
    }
  }

  /** A fragment spread is walked with its own record of optimised names, so a
      relation selected both beside the spread and inside it is prefetched
      twice, where the same selections written out in place prefetch it once.
      This is why `SpreadInlines` asks the spread's names to be disjoint from
      its neighbours'. */
  lemma SpreadRepeatsPrefetch()
    ensures |OptimizeGqlSelections(FruitEnv, SpreadFruits, "Color", None).prefetchList| == 2
    ensures |OptimizeGqlSelections(FruitEnv, InlinedFruits, "Color", None).prefetchList| == 1
  {
    SpreadPrefetchesTwice();
    InlinedPrefetchesOnce();
  }

  /** The spread's own walk of `fruits { name }` adds one more prefetch. */
  lemma SpreadWalksFruitsAgain(store: S.Store)
    ensures |OptimizeGqlSelections(FruitEnv, [FruitsName], "Color", Some(store)).prefetchList|
         == |store.prefetchList| + 1
  {
    FruitsAddsOnePrefetch(FruitsName, store, {});
    WalkLevelCons(FruitEnv, FruitsName, [], "Color", ["Color"], store, {});
    assert [FruitsName] + [] == [FruitsName];
    assert FruitEnv.possibleTypes("Color") == ["Color"];
  }

  /** The level `fruits { id } ...F` is the first field, then the spread
      walked into the same store. */
  lemma SpreadFruitsLevel()
    ensures var start := FreshStore(FruitEnv);
            var a := Step(FruitEnv, FruitsId, "Color", ["Color"], start, {});
            OptimizeGqlSelections(FruitEnv, SpreadFruits, "Color", None)
            == OptimizeGqlSelections(FruitEnv, [FruitsName], "Color", Some(a.0))
  {
    var env := FruitEnv;
    var start := FreshStore(env);
    var a := Step(env, FruitsId, "Color", ["Color"], start, {});
    var spread := FragmentSpread("F", [FruitsName]);
    WalkLevelCons(env, spread, [], "Color", ["Color"], a.0, a.1);
    WalkLevelCons(env, FruitsId, [spread], "Color", ["Color"], start, {});
    assert [spread] + [] == [spread];
    assert [FruitsId] + [spread] == SpreadFruits;
    assert env.possibleTypes("Color") == ["Color"];
  }

  /** The spread walks `fruits { name }` with a fresh record, so it prefetches again. */
  lemma SpreadPrefetchesTwice()
    ensures |OptimizeGqlSelections(FruitEnv, SpreadFruits, "Color", None).prefetchList| == 2
  {
    var start := FreshStore(FruitEnv);
    var a := Step(FruitEnv, FruitsId, "Color", ["Color"], start, {});
    FruitsAddsOnePrefetch(FruitsId, start, {});
    SpreadWalksFruitsAgain(a.0);
    SpreadFruitsLevel();
  }

  /** Written out in place, the second `fruits` is already settled at its level. */
  lemma InlinedPrefetchesOnce()
    ensures |OptimizeGqlSelections(FruitEnv, InlinedFruits, "Color", None).prefetchList| == 1
  {
    var env := FruitEnv;
    assert OptimizeGqlSelections(env, InlinedFruits, "Color", None)
        == OptimizeGqlSelections(env, [FruitsId], "Color", None) by {
      assert [FruitsId][0].name == FruitsName.name;
      RepeatedFieldIgnored(env, [FruitsId], FruitsName, [], "Color", None);
      assert [FruitsId] + [FruitsName] + [] == InlinedFruits && [FruitsId] + [] == [FruitsId];
    }
    var start := FreshStore(env);
    FruitsAddsOnePrefetch(FruitsId, start, {});
    LastStep(env, FruitsId, "Color", ["Color"], start, {});
    assert env.possibleTypes("Color") == ["Color"];
  }
}
