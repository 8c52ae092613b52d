/** Django querysets as inert terms.

    The optimizer never runs a query: it only chains `select_related`,
    `prefetch_related` and `only` onto a base queryset.  A `Query` records that
    chain, and a `Lookup` is one argument of `prefetch_related`: either a bare
    lookup path or a `Prefetch(path, queryset)` object.  The functions at the
    end of the module give the terms a meaning (which model they range over,
    which relation paths they load, which columns they restrict to), so that
    properties of the store can be stated about the queries it renders. */
module Queries {
  import opened Wrappers

  /** A Django model class, identified by name. */
  type ModelName = string

  /** Django's `LOOKUP_SEP`, the separator between the steps of a lookup path. */
  const Sep: string := "__"

  /** The lookup path `path` re-rooted under the relation `prefix`. */
  function Under(prefix: string, path: string): string
  {
    prefix + Sep + path
  }

  datatype Query =
    | Base(model: ModelName)                        // Model.objects.all()
    | SelectRel(inner: Query, paths: seq<string>)   // inner.select_related(*paths)
    | PrefetchRel(inner: Query, lookups: seq<Lookup>) // inner.prefetch_related(*lookups)
    | Only(inner: Query, columns: seq<string>)      // inner.only(*columns)

  datatype Lookup =
    | Name(path: string)                            // a lookup given as a string
    | Prefetch(path: string, queryset: Query)       // Prefetch(path, queryset=queryset)

  /** `Prefetch.add_prefix`, and string concatenation for a bare lookup: the
      lookup re-rooted under `prefix`, its queryset untouched.  The source
      mutates the `Prefetch` object in place; here a new value is returned. */
  function AddPrefix(prefix: string, l: Lookup): (r: Lookup)
    ensures r.path == Under(prefix, l.path)
    ensures r.Name? <==> l.Name?
    ensures r.Prefetch? ==> r.queryset == l.queryset
  {
    match l
    case Name(p) => Name(Under(prefix, p))
    case Prefetch(p, q) => Prefetch(Under(prefix, p), q)
  }

  /** Every path of `xs`, in order, re-rooted under `prefix`. */
  function UnderEach(prefix: string, xs: seq<string>): (r: seq<string>)
    ensures |r| == |xs|
    ensures forall i :: 0 <= i < |xs| ==> r[i] == Under(prefix, xs[i])
  {
    seq(|xs|, i requires 0 <= i < |xs| => Under(prefix, xs[i]))
  }

  /** Every lookup of `ls`, in order, re-rooted under `prefix`. */
  function AddPrefixEach(prefix: string, ls: seq<Lookup>): (r: seq<Lookup>)
    ensures |r| == |ls|
    ensures forall i :: 0 <= i < |ls| ==> r[i] == AddPrefix(prefix, ls[i])
  {
    seq(|ls|, i requires 0 <= i < |ls| => AddPrefix(prefix, ls[i]))
  }

  /** The set of the elements of a sequence. */
  function Elems<T>(xs: seq<T>): set<T>
  {
    set x | x in xs
  }

  /** Every path of the set `paths` re-rooted under `prefix`. */
  function UnderAll(prefix: string, paths: set<string>): set<string>
  {
    set p | p in paths :: Under(prefix, p)
  }

  // ---------------------------------------------------------------------------
  // Meaning of a query term

  /** Every `select_related`, `prefetch_related` and `only` call chained
      onto the base queryset is given at least one argument. */
  predicate NoEmptyCalls(q: Query)
  {
    match q
    case Base(_) => true
    case SelectRel(i, paths) => |paths| > 0 && NoEmptyCalls(i)
    case PrefetchRel(i, lookups) => |lookups| > 0 && NoEmptyCalls(i)
    case Only(i, columns) => |columns| > 0 && NoEmptyCalls(i)
  }

  /** The number of calls chained onto the base queryset. */
  function Calls(q: Query): nat
  {
    match q
    case Base(_) => 0
    case SelectRel(i, _) => Calls(i) + 1
    case PrefetchRel(i, _) => Calls(i) + 1
    case Only(i, _) => Calls(i) + 1
  }

  /** The paths given to the chain's `select_related` calls, innermost call
      first. */
  function Joins(q: Query): seq<string>
  {
    match q
    case Base(_) => []
    case SelectRel(i, paths) => Joins(i) + paths
    case PrefetchRel(i, _) => Joins(i)
    case Only(i, _) => Joins(i)
  }

  /** The lookups given to the chain's `prefetch_related` calls, innermost
      call first. */
  function Lookups(q: Query): seq<Lookup>
  {
    match q
    case Base(_) => []
    case SelectRel(i, _) => Lookups(i)
    case PrefetchRel(i, lookups) => Lookups(i) + lookups
    case Only(i, _) => Lookups(i)
  }

  /** The place of a call in the order `select_related`, `prefetch_related`,
      `only`. */
  function CallRank(q: Query): nat
  {
    match q
    case Base(_) => 0
    case SelectRel(_, _) => 1
    case PrefetchRel(_, _) => 2
    case Only(_, _) => 3
  }

  /** `q` is `base` with calls chained onto it in the order `select_related`,
      `prefetch_related`, `only`, each at most once and each ranked below
      `bound`. */
  predicate ChainedInOrder(q: Query, base: Query, bound: nat)
  {
    q == base || (!q.Base? && CallRank(q) < bound && ChainedInOrder(q.inner, base, CallRank(q)))
  }

  /** The model a queryset ranges over. */
  function ModelOf(q: Query): ModelName
  {
    match q
    case Base(m) => m
    case SelectRel(i, _) => ModelOf(i)
    case PrefetchRel(i, _) => ModelOf(i)
    case Only(i, _) => ModelOf(i)
  }

  /** The relation paths a queryset loads together with its rows: the
      `select_related` paths and the `prefetch_related` lookups, where a
      `Prefetch` also loads, under its own path, whatever its queryset loads. */
  function Fetches(q: Query): set<string>
    decreases q
  {
    match q
    case Base(_) => {}
    case SelectRel(i, ps) => Fetches(i) + Elems(ps)
    case PrefetchRel(i, ls) => Fetches(i) + LookupsFetch(ls)
    case Only(i, _) => Fetches(i)
  }

  function LookupFetches(l: Lookup): set<string>
    decreases l
  {
    match l
    case Name(p) => {p}
    case Prefetch(p, q) => {p} + UnderAll(p, Fetches(q))
  }

  function LookupsFetch(ls: seq<Lookup>): set<string>
    decreases ls
  {
    if |ls| == 0 then {} else LookupFetches(ls[0]) + LookupsFetch(ls[1..])
  }

  /** The column restriction in force on a queryset: a later `.only()`
      replaces an earlier one; `None` when no `.only()` was applied. */
  function Columns(q: Query): Option<seq<string>>
  {
    match q
    case Base(_) => None
    case SelectRel(i, _) => Columns(i)
    case PrefetchRel(i, _) => Columns(i)
    case Only(_, cols) => Some(cols)
  }

  // ---------------------------------------------------------------------------
  // Path algebra

  /** Re-rooting twice is re-rooting once under the composed prefix. */
  lemma UnderUnder(a: string, b: string, c: string)
    ensures Under(Under(a, b), c) == Under(a, Under(b, c))
  {
  }

  /** What a list of lookups loads is the union of what its parts load. */
  lemma {:induction false} LookupsFetchAppend(a: seq<Lookup>, b: seq<Lookup>)
    ensures LookupsFetch(a + b) == LookupsFetch(a) + LookupsFetch(b)
    decreases |a|
  {
    if |a| == 0 {
      assert a + b == b;
    } else {
      assert (a + b)[0] == a[0];
      assert (a + b)[1..] == a[1..] + b;
      LookupsFetchAppend(a[1..], b);
    }
  }

  /** A lookup is in a list's fetches exactly when some member loads it. */
  lemma {:induction false} LookupsFetchMembers(ls: seq<Lookup>, x: string)
    ensures x in LookupsFetch(ls) <==> exists i :: 0 <= i < |ls| && x in LookupFetches(ls[i])
    decreases |ls|
  {
    if |ls| > 0 {
      LookupsFetchMembers(ls[1..], x);
      if x in LookupsFetch(ls[1..]) {
        var i :| 0 <= i < |ls[1..]| && x in LookupFetches(ls[1..][i]);
        assert x in LookupFetches(ls[i + 1]);
      }
      if exists i :: 0 <= i < |ls| && x in LookupFetches(ls[i]) {
        var i :| 0 <= i < |ls| && x in LookupFetches(ls[i]);
        if i > 0 {
          assert x in LookupFetches(ls[1..][i - 1]);
        }
      }
    }
  }

  /** Re-rooting a lookup re-roots everything it loads (the round trip of
      prefix composition: `add_prefix` commutes with loading). */
  lemma AddPrefixFetches(prefix: string, l: Lookup)
    ensures LookupFetches(AddPrefix(prefix, l)) == UnderAll(prefix, LookupFetches(l))
  {
    match l
    case Name(p) =>
    case Prefetch(p, q) =>
      forall x | x in UnderAll(Under(prefix, p), Fetches(q))
        ensures x in UnderAll(prefix, UnderAll(p, Fetches(q)))
      {
        var y :| y in Fetches(q) && x == Under(Under(prefix, p), y);
        UnderUnder(prefix, p, y);
        assert Under(p, y) in UnderAll(p, Fetches(q));
      }
      forall x | x in UnderAll(prefix, UnderAll(p, Fetches(q)))
        ensures x in UnderAll(Under(prefix, p), Fetches(q))
      {
        var z :| z in UnderAll(p, Fetches(q)) && x == Under(prefix, z);
        var y :| y in Fetches(q) && z == Under(p, y);
        UnderUnder(prefix, p, y);
      }
  }

  /** Re-rooting every lookup of a list re-roots everything the list loads. */
  lemma {:induction false} AddPrefixEachFetches(prefix: string, ls: seq<Lookup>)
    ensures LookupsFetch(AddPrefixEach(prefix, ls)) == UnderAll(prefix, LookupsFetch(ls))
    decreases |ls|
  {
    var r := AddPrefixEach(prefix, ls);
    if |ls| > 0 {
      assert r[1..] == AddPrefixEach(prefix, ls[1..]);
      AddPrefixEachFetches(prefix, ls[1..]);
      AddPrefixFetches(prefix, ls[0]);
      UnderAllUnion(prefix, LookupFetches(ls[0]), LookupsFetch(ls[1..]));
    }
  }

  lemma UnderAllUnion(prefix: string, a: set<string>, b: set<string>)
    ensures UnderAll(prefix, a + b) == UnderAll(prefix, a) + UnderAll(prefix, b)
  {
  }

  /** The set of re-rooted paths is the re-rooted set of paths. */
  lemma UnderEachElems(prefix: string, xs: seq<string>)
    ensures Elems(UnderEach(prefix, xs)) == UnderAll(prefix, Elems(xs))
  {
    var r := UnderEach(prefix, xs);
    forall x | x in Elems(r) ensures x in UnderAll(prefix, Elems(xs)) {
      var i :| 0 <= i < |r| && r[i] == x;
      assert xs[i] in Elems(xs);
    }
    forall x | x in UnderAll(prefix, Elems(xs)) ensures x in Elems(r) {
      var y :| y in Elems(xs) && x == Under(prefix, y);
      var i :| 0 <= i < |xs| && xs[i] == y;
      assert r[i] == x;
    }
  }

  // ---------------------------------------------------------------------------
  // The first step of a lookup path

  /** The separator `__` starts at position `i` of `s`. */
  predicate SepAt(s: string, i: int)
  {
    0 <= i && i + 1 < |s| && s[i] == '_' && s[i + 1] == '_'
  }

  /** The position of the first separator of `s` at or after `from`, or `|s|`
      when there is none. */
  function FirstSep(s: string, from: nat): (i: nat)
    requires from <= |s|
    ensures from <= i <= |s|
    ensures i < |s| ==> SepAt(s, i)
    ensures forall j :: from <= j < i ==> !SepAt(s, j)
    decreases |s| - from
  {
    if from == |s| || SepAt(s, from) then from else FirstSep(s, from + 1)
  }

  /** `path.split('__')[0]`: the text before the first separator, or the whole
      path when it has none. */
  function FirstStep(path: string): (r: string)
    ensures r <= path
    ensures forall j :: 0 <= j < |r| ==> !SepAt(path, j)
    ensures |r| < |path| ==> SepAt(path, |r|)
  {
    path[..FirstSep(path, 0)]
  }

  /** A relation name that can head a path: it holds no separator and does not
      end in `_` (so that no separator straddles the joint). */
  predicate IsStep(name: string)
  {
    && (forall j :: 0 <= j < |name| ==> !SepAt(name, j))
    && (|name| == 0 || name[|name| - 1] != '_')
  }

  /** A single step is its own first step. */
  lemma FirstStepOfStep(name: string)
    requires IsStep(name)
    ensures FirstStep(name) == name
  {
  }

  /** Re-rooting a path under a single step keeps that step first: the lookup
      of `prefix__rest` goes through `prefix`. */
  lemma FirstStepUnder(prefix: string, rest: string)
    requires IsStep(prefix)
    ensures FirstStep(Under(prefix, rest)) == prefix
  {
    var p := Under(prefix, rest);
    var r := FirstStep(p);
    assert p[|prefix|] == '_' && p[|prefix| + 1] == '_';
    assert SepAt(p, |prefix|);
    assert p[..|prefix|] == prefix;
    if |r| < |prefix| {
      var j := |r|;
      assert SepAt(p, j);
      if j + 1 < |prefix| {
        assert SepAt(prefix, j);
      }
    }
  }
}
