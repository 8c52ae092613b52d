/** `QueryOptimizerStore`: the plan accumulator.

    A store holds the `select_related` paths, the `prefetch_related` lookups
    and the `only` columns gathered for one level of a GraphQL query.  The
    column list is `None` once the "only" optimisation has been aborted.  The
    source mutates a store in place; here every operation returns the new
    store. */
module OptimizerStore {
  import opened Wrappers
  import Q = Queries

  datatype Store = Store(
    selectList: seq<string>,
    prefetchList: seq<Q.Lookup>,
    onlyList: Option<seq<string>>,
    disableAbortOnly: bool)

  /** `QueryOptimizerStore(disable_abort_only)`: nothing selected, nothing
      prefetched, and an empty but enabled column restriction. */
  function Init(disableAbortOnly: bool := false): (s: Store)
    ensures |s.selectList| == 0 && |s.prefetchList| == 0
    ensures !Disabled(s) && !HasColumns(s)
    ensures s.disableAbortOnly == disableAbortOnly
  {
    Store([], [], Some([]), disableAbortOnly)
  }

  /** The "only" optimisation has been aborted. */
  predicate Disabled(s: Store)
  {
    s.onlyList.None?
  }

  /** The store holds a non-empty column restriction (`if store.only_list`). */
  predicate HasColumns(s: Store)
  {
    s.onlyList.Some? && |s.onlyList.value| > 0
  }

  /** `b` grew from `a` by appending only: every list of `a` is a prefix of the
      same list of `b`, the flag is kept, and an aborted restriction is never
      re-enabled. */
  predicate Extends(a: Store, b: Store)
  {
    && a.selectList <= b.selectList
    && a.prefetchList <= b.prefetchList
    && a.disableAbortOnly == b.disableAbortOnly
    && (a.onlyList.None? ==> b.onlyList.None?)
    && (a.onlyList.Some? && b.onlyList.Some? ==> a.onlyList.value <= b.onlyList.value)
  }

  lemma ExtendsTransitive(a: Store, b: Store, c: Store)
    requires Extends(a, b) && Extends(b, c)
    ensures Extends(a, c)
  {
  }

  /** `only(field)`: restrict to one more column, unless the restriction was
      aborted. */
  function Only(s: Store, field: string): (r: Store)
    ensures Extends(s, r)
    ensures r.selectList == s.selectList && r.prefetchList == s.prefetchList
    ensures r.onlyList.Some? <==> s.onlyList.Some?
    ensures r.onlyList.Some? ==> r.onlyList.value == s.onlyList.value + [field]
    ensures Disabled(s) ==> r == s
  {
    if s.onlyList.Some? then s.(onlyList := Some(s.onlyList.value + [field])) else s
  }

  /** `abort_only_optimization()`: give up the column restriction, unless the
      store was told to keep it. */
  function AbortOnlyOptimization(s: Store): (r: Store)
    ensures Extends(s, r)
    ensures Disabled(r) <==> Disabled(s) || !s.disableAbortOnly
    ensures !Disabled(r) ==> r == s
    ensures r.selectList == s.selectList && r.prefetchList == s.prefetchList
  {
    if s.disableAbortOnly then s else s.(onlyList := None)
  }

  /** `select_related(name, child)`: join the to-one relation `name` and take
      over the child's plan re-rooted under it. */
  function SelectRelated(s: Store, name: string, child: Store): (r: Store)
    ensures Extends(s, r)
    ensures |r.selectList| == |s.selectList| + (if |child.selectList| > 0 then |child.selectList| else 1)
    ensures |child.selectList| > 0 ==> r.selectList == s.selectList + Q.UnderEach(name, child.selectList)
    ensures |child.selectList| == 0 ==> r.selectList == s.selectList + [name]
    ensures r.prefetchList == s.prefetchList + Q.AddPrefixEach(name, child.prefetchList)
    ensures !Disabled(s) && Disabled(child) ==> r.onlyList == AbortOnlyOptimization(s).onlyList
    ensures !Disabled(s) && !Disabled(child) ==>
              r.onlyList == Some(s.onlyList.value + Q.UnderEach(name, child.onlyList.value))
    ensures Disabled(s) ==> Disabled(r)
  {
    var selects := if |child.selectList| > 0 then Q.UnderEach(name, child.selectList) else [name];
    var prefetches := Q.AddPrefixEach(name, child.prefetchList);
    var s1 := s.(selectList := s.selectList + selects, prefetchList := s.prefetchList + prefetches);
    if Disabled(s1) then s1
    else if Disabled(child) then AbortOnlyOptimization(s1)
    else s1.(onlyList := Some(s1.onlyList.value + Q.UnderEach(name, child.onlyList.value)))
  }

  /** `prefetch_related(name, child, queryset)`: prefetch the to-many relation
      `name`.  A child that joins or restricts columns is rendered onto
      `queryset` and becomes one `Prefetch` object; a child that only prefetches
      has its lookups re-rooted; an empty child leaves the bare name.  The
      parent's joins and columns are untouched. */
  function PrefetchRelated(s: Store, name: string, child: Store, queryset: Q.Query): (r: Store)
    ensures Extends(s, r)
    ensures r.selectList == s.selectList && r.onlyList == s.onlyList
    ensures |child.selectList| > 0 || HasColumns(child) ==>
              r.prefetchList == s.prefetchList + [Q.Prefetch(name, OptimizeQueryset(child, queryset))]
    ensures !(|child.selectList| > 0 || HasColumns(child)) && |child.prefetchList| > 0 ==>
              r.prefetchList == s.prefetchList + Q.AddPrefixEach(name, child.prefetchList)
    ensures !(|child.selectList| > 0 || HasColumns(child)) && |child.prefetchList| == 0 ==>
              r.prefetchList == s.prefetchList + [Q.Name(name)]
  {
    if |child.selectList| > 0 || HasColumns(child) then
      s.(prefetchList := s.prefetchList + [Q.Prefetch(name, OptimizeQueryset(child, queryset))])
    else if |child.prefetchList| > 0 then
      s.(prefetchList := s.prefetchList + Q.AddPrefixEach(name, child.prefetchList))
    else
      s.(prefetchList := s.prefetchList + [Q.Name(name)])
  }

  /** `optimize_queryset(queryset)`: render the plan onto a queryset.  The
      result ranges over the same model, loads what the queryset loaded plus
      every join and prefetch of the store, and is restricted to the store's
      columns when there are any; an empty plan leaves the queryset as it is. */
  function OptimizeQueryset(s: Store, queryset: Q.Query): (r: Q.Query)
    ensures Q.ModelOf(r) == Q.ModelOf(queryset)
    ensures Q.Fetches(r) == Q.Fetches(queryset) + Q.Elems(s.selectList) + Q.LookupsFetch(s.prefetchList)
    ensures HasColumns(s) ==> Q.Columns(r) == s.onlyList
    ensures !HasColumns(s) ==> Q.Columns(r) == Q.Columns(queryset)
    ensures |s.selectList| == 0 && |s.prefetchList| == 0 && !HasColumns(s) ==> r == queryset
    ensures Q.Joins(r) == Q.Joins(queryset) + s.selectList
    ensures Q.Lookups(r) == Q.Lookups(queryset) + s.prefetchList
    ensures HasColumns(s) ==> r.Only? && r.columns == s.onlyList.value
    ensures Q.ChainedInOrder(r, queryset, 4)
    ensures Q.NoEmptyCalls(queryset) ==> Q.NoEmptyCalls(r)
    ensures Q.Calls(r) == Q.Calls(queryset) + (if |s.selectList| > 0 then 1 else 0)
                          + (if |s.prefetchList| > 0 then 1 else 0) + (if HasColumns(s) then 1 else 0)
  {
    assert |s.selectList| == 0 ==> Q.Elems(s.selectList) == {};
    var q1 := if |s.selectList| > 0 then Q.SelectRel(queryset, s.selectList) else queryset;
    assert Q.ModelOf(q1) == Q.ModelOf(queryset) && Q.Columns(q1) == Q.Columns(queryset);
    assert Q.Fetches(q1) == Q.Fetches(queryset) + Q.Elems(s.selectList);
    var q2 := if |s.prefetchList| > 0 then Q.PrefetchRel(q1, s.prefetchList) else q1;
    assert Q.ModelOf(q2) == Q.ModelOf(q1) && Q.Columns(q2) == Q.Columns(q1);
    assert Q.Fetches(q2) == Q.Fetches(q1) + Q.LookupsFetch(s.prefetchList);
    assert Q.NoEmptyCalls(queryset) ==> Q.NoEmptyCalls(q2);
    assert Q.ChainedInOrder(q1, queryset, 2);
    assert Q.Joins(q1) == Q.Joins(queryset) + s.selectList && Q.Lookups(q1) == Q.Lookups(queryset) by {
      if |s.selectList| == 0 { assert s.selectList == []; assert Q.Joins(queryset) + [] == Q.Joins(queryset); }
    }
    assert Q.Joins(q2) == Q.Joins(q1) && Q.Lookups(q2) == Q.Lookups(queryset) + s.prefetchList by {
      if |s.prefetchList| == 0 { assert s.prefetchList == []; assert Q.Lookups(queryset) + [] == Q.Lookups(queryset); }
    }
    assert Q.ChainedInOrder(q2, queryset, 3);
    assert Q.Calls(q2) == Q.Calls(queryset) + (if |s.selectList| > 0 then 1 else 0)
                          + (if |s.prefetchList| > 0 then 1 else 0);
    if HasColumns(s) then Q.Only(q2, s.onlyList.value) else q2
  }

  /** `append(other)`: concatenate two plans.  The result's restriction is
      aborted when either side's is, whatever `disable_abort_only` says. */
  function Append(s: Store, other: Store): (r: Store)
    ensures Extends(s, r)
    ensures r.selectList == s.selectList + other.selectList
    ensures r.prefetchList == s.prefetchList + other.prefetchList
    ensures Disabled(r) <==> Disabled(s) || Disabled(other)
    ensures !Disabled(r) ==> r.onlyList.value == s.onlyList.value + other.onlyList.value
  {
    var s1 := s.(selectList := s.selectList + other.selectList,
                  prefetchList := s.prefetchList + other.prefetchList);
    if Disabled(s1) then s1
    else if Disabled(other) then s1.(onlyList := None)
    else s1.(onlyList := Some(s1.onlyList.value + other.onlyList.value))
  }

  // ---------------------------------------------------------------------------
  // Properties relating several operations

  /** A fresh store renders any queryset unchanged. */
  lemma InitRendersNothing(disableAbortOnly: bool, queryset: Q.Query)
    ensures OptimizeQueryset(Init(disableAbortOnly), queryset) == queryset
  {
  }

  /** The three rendering steps come in the order joins, prefetches, columns. */
  lemma OptimizeQuerysetOrder(s: Store, queryset: Q.Query)
    requires |s.selectList| > 0 && |s.prefetchList| > 0 && HasColumns(s)
    ensures OptimizeQueryset(s, queryset)
         == Q.Only(Q.PrefetchRel(Q.SelectRel(queryset, s.selectList), s.prefetchList), s.onlyList.value)
  {
  }

  /** `append` is associative, so a plan may be assembled in any grouping. */
  lemma AppendAssociative(a: Store, b: Store, c: Store)
    ensures Append(Append(a, b), c) == Append(a, Append(b, c))
  {
    assert (a.selectList + b.selectList) + c.selectList == a.selectList + (b.selectList + c.selectList);
    assert (a.prefetchList + b.prefetchList) + c.prefetchList == a.prefetchList + (b.prefetchList + c.prefetchList);
    if !Disabled(a) && !Disabled(b) && !Disabled(c) {
      var x, y, z := a.onlyList.value, b.onlyList.value, c.onlyList.value;
      assert (x + y) + z == x + (y + z);
    }
  }

  /** A fresh store is a neutral element of `append` on both sides (on the
      left, up to the flag, which `append` takes from its receiver). */
  lemma AppendInit(s: Store, disableAbortOnly: bool)
    ensures Append(s, Init(disableAbortOnly)) == s
    ensures Append(Init(disableAbortOnly), s) == s.(disableAbortOnly := disableAbortOnly)
  {
    assert s.selectList + [] == s.selectList && [] + s.selectList == s.selectList;
    assert s.prefetchList + [] == s.prefetchList && [] + s.prefetchList == s.prefetchList;
    if s.onlyList.Some? {
      assert s.onlyList.value + [] == s.onlyList.value && [] + s.onlyList.value == s.onlyList.value;
    }
  }

  /** Joining a child under `name` and rendering loads what rendering the
      child on its own loads, re-rooted under `name` (up to `name` itself,
      which Django loads for any path under it). */
  lemma SelectRelatedComposes(s: Store, name: string, child: Store, queryset: Q.Query, target: Q.ModelName)
    ensures Q.Fetches(OptimizeQueryset(SelectRelated(s, name, child), queryset)) + {name}
         == Q.Fetches(OptimizeQueryset(s, queryset)) + {name}
            + Q.UnderAll(name, Q.Fetches(OptimizeQueryset(child, Q.Base(target))))
  {
    var r := SelectRelated(s, name, child);
    var childJoins, childLookups := Q.Elems(child.selectList), Q.LookupsFetch(child.prefetchList);
    SelectedJoins(s, name, child);
    SelectedLookups(s, name, child);
    Q.UnderAllUnion(name, childJoins, childLookups);
    assert Q.Fetches(OptimizeQueryset(child, Q.Base(target))) == childJoins + childLookups;
    RegroupUnion(Q.Fetches(queryset), Q.Elems(r.selectList), Q.LookupsFetch(r.prefetchList),
                 Q.Elems(s.selectList), Q.LookupsFetch(s.prefetchList),
                 Q.UnderAll(name, childJoins), Q.UnderAll(name, childLookups), {name});
  }

  /** Set bookkeeping for `SelectRelatedComposes`. */
  lemma RegroupUnion<T>(base: set<T>, joins: set<T>, lookups: set<T>, joins0: set<T>, lookups0: set<T>,
                        addedJoins: set<T>, addedLookups: set<T>, top: set<T>)
    requires joins + top == joins0 + top + addedJoins
    requires lookups == lookups0 + addedLookups
    ensures base + joins + lookups + top == base + joins0 + lookups0 + top + (addedJoins + addedLookups)
  {
  }

  /** The joins of `select_related` are the parent's and the child's under
      `name` (up to `name` itself, joined alone when the child joins nothing). */
  lemma SelectedJoins(s: Store, name: string, child: Store)
    ensures Q.Elems(SelectRelated(s, name, child).selectList) + {name}
         == Q.Elems(s.selectList) + {name} + Q.UnderAll(name, Q.Elems(child.selectList))
  {
  }

  /** What the prefetches of `select_related` load is what the parent's load
      and what the child's load under `name`. */
  lemma SelectedLookups(s: Store, name: string, child: Store)
    ensures Q.LookupsFetch(SelectRelated(s, name, child).prefetchList)
         == Q.LookupsFetch(s.prefetchList) + Q.UnderAll(name, Q.LookupsFetch(child.prefetchList))
  {
    var childLookups := Q.AddPrefixEach(name, child.prefetchList);
    Q.LookupsFetchAppend(s.prefetchList, childLookups);
    Q.AddPrefixEachFetches(name, child.prefetchList);
  }

  /** Prefetching a child under `name` and rendering loads what rendering the
      child on the prefetch queryset loads, re-rooted under `name`, whichever
      of the three cases applies (up to `name` itself). */
  lemma PrefetchRelatedComposes(s: Store, name: string, child: Store, queryset: Q.Query, target: Q.ModelName)
    ensures Q.Fetches(OptimizeQueryset(PrefetchRelated(s, name, child, Q.Base(target)), queryset)) + {name}
         == Q.Fetches(OptimizeQueryset(s, queryset)) + {name}
            + Q.UnderAll(name, Q.Fetches(OptimizeQueryset(child, Q.Base(target))))
  {
    var r := PrefetchRelated(s, name, child, Q.Base(target));
    PrefetchedLookups(s, name, child, target);
    assert Q.Fetches(OptimizeQueryset(r, queryset))
        == Q.Fetches(queryset) + Q.Elems(s.selectList) + Q.LookupsFetch(r.prefetchList);
  }

  /** The lookups `prefetch_related` adds load the child's plan under `name`. */
  lemma PrefetchedLookups(s: Store, name: string, child: Store, target: Q.ModelName)
    ensures Q.LookupsFetch(PrefetchRelated(s, name, child, Q.Base(target)).prefetchList) + {name}
         == Q.LookupsFetch(s.prefetchList) + {name}
            + Q.UnderAll(name, Q.Fetches(OptimizeQueryset(child, Q.Base(target))))
  {
    var r := PrefetchRelated(s, name, child, Q.Base(target));
    var added := r.prefetchList[|s.prefetchList|..];
    assert r.prefetchList == s.prefetchList + added;
    Q.LookupsFetchAppend(s.prefetchList, added);
    var childFetches := Q.Fetches(OptimizeQueryset(child, Q.Base(target)));
    assert childFetches == Q.Elems(child.selectList) + Q.LookupsFetch(child.prefetchList);
    if |child.selectList| > 0 || HasColumns(child) {
      var l := Q.Prefetch(name, OptimizeQueryset(child, Q.Base(target)));
      assert added == [l];
      assert Q.LookupsFetch(added) == Q.LookupFetches(l) + Q.LookupsFetch([]);
    } else if |child.prefetchList| > 0 {
      assert Q.Elems(child.selectList) == {};
      Q.AddPrefixEachFetches(name, child.prefetchList);
    } else {
      assert Q.Elems(child.selectList) == {};
      assert childFetches == {};
      assert added == [Q.Name(name)];
      assert Q.LookupsFetch(added) == {name} + Q.LookupsFetch([]);
    }
  }
}
