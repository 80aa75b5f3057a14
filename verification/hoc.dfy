/**
 The higher-order components `provide(ctx)(Child)` and
 `mergingProvide(ctx)(Child)`, reduced to what can be asked of them without
 rendering: which provider they wrap around which component, with which
 fixed context, and what `getWrappedComponent()` answers.
 */
module Hoc {
  import opened Values

  datatype ProviderKind = ProviderTag | MergingProviderTag

  /** One layer of wrapping: the provider used and the context it is given. */
  datatype Layer = Layer(kind: ProviderKind, ctx: map<string, Value>)

  /** A component: an ordinary one, identified by `id`, or a wrapper made by `provide`/`mergingProvide`. */
  datatype Component =
    | Base(id: nat)
    | Wrapper(kind: ProviderKind, ctx: map<string, Value>, inner: Component)

  /**
   A wrapper's `getWrappedComponent()`: the wrapped child's own accessor when
   the child is itself a wrapper, otherwise the child. The answer is never a
   wrapper.
   */
  function GetWrappedComponent(w: Component): (c: Component)
    requires w.Wrapper?
    ensures !c.Wrapper?
    decreases w
  {
    if w.inner.Wrapper? then GetWrappedComponent(w.inner) else w.inner
  }

  /** `provide(ctx)(child)`: a `Provider` wrapper whose accessor answers what the child's accessor would, or the child itself. */
  function Provide(ctx: map<string, Value>, child: Component): (w: Component)
    ensures w.Wrapper? && w.kind == ProviderTag && w.ctx == ctx
    ensures GetWrappedComponent(w) == (if child.Wrapper? then GetWrappedComponent(child) else child)
  {
    Wrapper(ProviderTag, ctx, child)
  }

  /** `mergingProvide(ctx)(child)`: the same for a `MergingProvider` wrapper. */
  function MergingProvide(ctx: map<string, Value>, child: Component): (w: Component)
    ensures w.Wrapper? && w.kind == MergingProviderTag && w.ctx == ctx
    ensures GetWrappedComponent(w) == (if child.Wrapper? then GetWrappedComponent(child) else child)
  {
    Wrapper(MergingProviderTag, ctx, child)
  }

  /** Applies one layer with the higher-order component its kind names. */
  function ApplyLayer(layer: Layer, c: Component): Component {
    match layer.kind
    case ProviderTag => Provide(layer.ctx, c)
    case MergingProviderTag => MergingProvide(layer.ctx, c)
  }

  /** Wraps `c` in the given layers, the last layer outermost. */
  function WrapAll(layers: seq<Layer>, c: Component): Component
    decreases |layers|
  {
    if layers == [] then c
    else
      var last := layers[|layers| - 1];
      ApplyLayer(last, WrapAll(layers[..|layers| - 1], c))
  }

  /** However many `provide`/`mergingProvide` layers are stacked on a component, unwrapping gives back that component. */
  lemma {:induction false} UnwrapNested(layers: seq<Layer>, c: Component)
    requires |layers| > 0 && !c.Wrapper?
    ensures WrapAll(layers, c).Wrapper?
    ensures GetWrappedComponent(WrapAll(layers, c)) == c
    decreases |layers|
  {
    var inner := layers[..|layers| - 1];
    if |inner| > 0 {
      UnwrapNested(inner, c);
    }
  }

  /** Every wrapper is a stack of layers over the component its accessor returns. */
  lemma {:induction false} WrapperIsLayers(w: Component)
    requires w.Wrapper?
    ensures exists layers: seq<Layer> :: |layers| > 0 && WrapAll(layers, GetWrappedComponent(w)) == w
    decreases w
  {
    var top := Layer(w.kind, w.ctx);
    if w.inner.Wrapper? {
      WrapperIsLayers(w.inner);
      var layers: seq<Layer> :| |layers| > 0 && WrapAll(layers, GetWrappedComponent(w.inner)) == w.inner;
      var all := layers + [top];
      assert all[..|all| - 1] == layers;
      assert WrapAll(all, GetWrappedComponent(w)) == w;
    } else {
      assert WrapAll([top], w.inner) == w;
    }
  }
}
