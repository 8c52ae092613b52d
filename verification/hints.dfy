/** `OptimizationHints`: the optimisation directives a resolver author may
    attach to a field.  Every directive is stored as a function of the field's
    call-site arguments, whether it was given as a plain value or as a
    callable. */
module Hints {
  import opened Wrappers

  /** What a hint is called with.  The walker calls hints with
      `*selected_field.arguments`; unpacking the arguments dict passes its
      keys, so a hint sees the argument names in order. */
  type Args = seq<string>

  /** A value a hint is given or returns, classified the way `is_iterable`
      classifies it. */
  datatype HintValue =
    | Nothing                    // None
    | Atom(atom: string)         // a value `is_iterable` rejects: a single lookup
    | Items(items: seq<string>)  // a value `is_iterable` accepts, iterating to `items`

  predicate IsIterable(v: HintValue)
  {
    v.Items?
  }

  /** Python truthiness: None, the empty string and empty collections are false. */
  predicate Truthy(v: HintValue)
  {
    match v
    case Nothing => false
    case Atom(a) => a != ""
    case Items(xs) => |xs| > 0
  }

  /** A constructor argument: a plain value, or a callable (`callable(value)`). */
  datatype Param<T> = Static(value: T) | Callable(call: Args -> T)

  /** `utils.noop`, the default hint: a callable whose result is falsy. */
  function Noop(args: Args): HintValue
  {
    Nothing
  }

  /** The four normalised hints of one field. */
  datatype OptimizationHints = OptimizationHints(
    modelField: Args -> Option<string>,
    selectRelated: Args -> HintValue,
    prefetchRelated: Args -> HintValue,
    only: Args -> HintValue)

  /** `_normalize_model_field`: a callable is kept; any other value, `None`
      included, becomes a function that ignores its arguments and returns that
      value. */
  function NormalizeModelField(p: Param<Option<string>>): (f: Args -> Option<string>)
    ensures p.Static? ==> forall args :: f(args) == p.value
    ensures p.Callable? ==> f == p.call
  {
    match p
    case Callable(g) => g
    case Static(v) => (args: Args) => v
  }

  /** `_normalize_hint_value`: a callable is kept; an iterable value becomes a
      function returning it; any other value becomes a function returning the
      1-tuple `(value,)`. */
  function NormalizeHintValue(p: Param<HintValue>): (f: Args -> HintValue)
    requires p.Static? ==> !p.value.Nothing?
    ensures p.Static? && IsIterable(p.value) ==> forall args :: f(args) == p.value
    ensures p.Static? && !IsIterable(p.value) ==> forall args :: f(args) == Items([p.value.atom])
    ensures p.Callable? ==> f == p.call
  {
    match p
    case Callable(g) => g
    case Static(v) =>
      var w := if IsIterable(v) then v else Items([v.atom]);
      (args: Args) => w
  }

  /** `OptimizationHints(model_field, select_related, prefetch_related, only)`:
      each argument is normalised on its own into the attribute of the same
      name. */
  function MakeHints(
    modelField: Param<Option<string>> := Static(None),
    selectRelated: Param<HintValue> := Callable(Noop),
    prefetchRelated: Param<HintValue> := Callable(Noop),
    only: Param<HintValue> := Callable(Noop)): (h: OptimizationHints)
    requires selectRelated.Static? ==> !selectRelated.value.Nothing?
    requires prefetchRelated.Static? ==> !prefetchRelated.value.Nothing?
    requires only.Static? ==> !only.value.Nothing?
    ensures h.modelField == NormalizeModelField(modelField)
    ensures h.selectRelated == NormalizeHintValue(selectRelated)
    ensures h.prefetchRelated == NormalizeHintValue(prefetchRelated)
    ensures h.only == NormalizeHintValue(only)
  {
    OptimizationHints(
      NormalizeModelField(modelField),
      NormalizeHintValue(selectRelated),
      NormalizeHintValue(prefetchRelated),
      NormalizeHintValue(only))
  }

  /** Hints built from the defaults override no name and yield only falsy
      values, whatever the arguments. */
  lemma DefaultHintsAreInert(args: Args)
    ensures MakeHints().modelField(args) == None
    ensures !Truthy(MakeHints().selectRelated(args))
    ensures !Truthy(MakeHints().prefetchRelated(args))
    ensures !Truthy(MakeHints().only(args))
  {
  }

  /** A static value given for a hint is returned, as an iterable, on every
      call: a single lookup is wrapped into a one-element tuple, and a
      non-empty one is truthy even when its text is empty. */
  lemma StaticHintIsConstant(v: HintValue, a: Args, b: Args)
    requires !v.Nothing?
    ensures NormalizeHintValue(Static(v))(a) == NormalizeHintValue(Static(v))(b)
    ensures IsIterable(NormalizeHintValue(Static(v))(a))
    ensures v.Atom? ==> Truthy(NormalizeHintValue(Static(v))(a))
  {
  }
}
