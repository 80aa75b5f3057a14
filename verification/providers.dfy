/**
 The child-context hooks of the two provider components.

 `Provider` exposes every prop except `children`; `MergingProvider` also
 drops its `mergeProps` prop and deep-merges each exposed prop with the
 value the inherited context already holds under that key, either for every
 key (when `mergeProps` is not an array, in particular when it is absent) or
 only for the keys the `mergeProps` array lists. The props and the inherited
 context are passed in explicitly; in the source they are the component's
 `this.props` and `this.context`.
 */
module Providers {
  import opened Values
  import opened Merge

  const Children := "children"
  const MergeProps := "mergeProps"

  /** Whether `MergingProvider` merges prop `k`: always, unless `mergeProps` is an array that does not list `k`. */
  predicate ShouldMerge(props: map<string, Value>, k: string) {
    var selector := Lookup(props, MergeProps);
    !IsArray(selector) || Includes(selector, k)
  }

  /** The context `Provider` hands to its descendants. */
  function ProviderContext(props: map<string, Value>): map<string, Value> {
    props - {Children}
  }

  /** The context `MergingProvider` hands to its descendants. */
  function MergingContext(props: map<string, Value>, inherited: map<string, Value>): map<string, Value> {
    map k | k in props.Keys - {Children, MergeProps} ::
      if ShouldMerge(props, k) then DeepMerge(Lookup(inherited, k), props[k]) else props[k]
  }

  /** `Provider.getChildContext`: every prop but `children`, verbatim. */
  method ProviderChildContext(props: map<string, Value>) returns (context: map<string, Value>)
    ensures context.Keys == props.Keys - {Children}
    ensures forall k | k in context :: context[k] == props[k]
    ensures context == ProviderContext(props)
  {
    context := map[];
    var todo := props.Keys;
    while todo != {}
      invariant todo <= props.Keys
      invariant context.Keys == (props.Keys - todo) - {Children}
      invariant forall k | k in context :: context[k] == props[k]
      decreases todo
    {
      var i :| i in todo;
      if i != Children {
        context := context[i := props[i]];
      }
      todo := todo - {i};
    }
  }

  /** `MergingProvider.getChildContext`. */
  method MergingProviderChildContext(props: map<string, Value>, inherited: map<string, Value>)
    returns (context: map<string, Value>)
    ensures context == MergingContext(props, inherited)
  {
    context := map[];
    var mergeProps := Lookup(props, MergeProps);
    var mergeIsArray := IsArray(mergeProps);
    var todo := props.Keys;
    while todo != {}
      invariant todo <= props.Keys
      invariant context.Keys == (props.Keys - todo) - {Children, MergeProps}
      invariant forall k | k in context :: context[k] == MergingContext(props, inherited)[k]
      decreases todo
    {
      var i :| i in todo;
      if i != Children && i != MergeProps {
        if !mergeIsArray || Includes(mergeProps, i) {
          var merged := DeepAssign(Lookup(inherited, i), props[i]);
          context := context[i := merged];
        } else {
          context := context[i := props[i]];
        }
      }
      todo := todo - {i};
    }
  }

  /** The exposed keys are exactly the props minus the two reserved ones, whatever the inherited context holds. */
  lemma MergingContextKeys(props: map<string, Value>, inherited: map<string, Value>)
    ensures MergingContext(props, inherited).Keys == props.Keys - {Children, MergeProps}
  {
  }

  /** With `mergeProps` an array, listed keys are merged and the others replace the inherited value. */
  lemma SelectedKeysMerged(props: map<string, Value>, inherited: map<string, Value>, k: string)
    requires k in props && k != Children && k != MergeProps
    requires MergeProps in props && IsArray(props[MergeProps])
    ensures Includes(props[MergeProps], k) ==>
      MergingContext(props, inherited)[k] == DeepMerge(Lookup(inherited, k), props[k])
    ensures !Includes(props[MergeProps], k) ==> MergingContext(props, inherited)[k] == props[k]
  {
  }

  /** With `mergeProps` absent or not an array, every exposed key is merged. */
  lemma AllKeysMerged(props: map<string, Value>, inherited: map<string, Value>, k: string)
    requires k in props && k != Children && k != MergeProps
    requires !IsArray(Lookup(props, MergeProps))
    ensures MergingContext(props, inherited)[k] == DeepMerge(Lookup(inherited, k), props[k])
  {
  }

  /** An empty `mergeProps` array makes `MergingProvider` behave as `Provider` (less its `mergeProps` prop). */
  lemma EmptySelectorIsProvider(props: map<string, Value>, inherited: map<string, Value>)
    requires MergeProps in props && props[MergeProps] == Obj(map[], true)
    ensures MergingContext(props, inherited) == props - {Children, MergeProps}
  {
  }

  /** Under an inherited context that shares no key with the props, merging changes nothing. */
  lemma FreshKeysPassThrough(props: map<string, Value>, inherited: map<string, Value>)
    requires props.Keys !! inherited.Keys
    ensures MergingContext(props, inherited) == props - {Children, MergeProps}
  {
  }

  /** A defined non-object value the inherited context holds under a merged key blocks the prop's value. */
  lemma InheritedScalarBlocks(props: map<string, Value>, inherited: map<string, Value>, k: string)
    requires k in props && k != Children && k != MergeProps && ShouldMerge(props, k)
    requires k in inherited && IsDefined(inherited[k]) && !IsObject(inherited[k])
    ensures MergingContext(props, inherited)[k] == inherited[k]
  {
  }
}
