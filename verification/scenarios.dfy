/**
 Concrete provider trees from the documentation comments and the test
 suite, evaluated on the model. Each lemma takes the props and contexts of
 its tree as parameters fixed by its `requires`.

 What a descendant sees is the host framework's composition of contexts: the
 context inherited from above, overridden key by key by the provider's child
 context (`SeenBelow`). That composition belongs to Preact, not to this
 library; it is written here only to state the examples end to end.
 */
module Scenarios {
  import opened Values
  import opened Merge
  import opened Providers
  import opened Hoc

  /** Preact's composition: the provider's child context overrides the inherited one. */
  function SeenBelow(inherited: map<string, Value>, child: map<string, Value>): map<string, Value> {
    inherited + child
  }

  /** The `children` prop of a provider with one child element (its value never reaches the context). */
  const SomeChildren := Obj(map["0" := Func("vnode")], true)

  /** When the provider redefines every inherited key, what descendants see is its child context alone. */
  lemma SeenBelowCovers(inherited: map<string, Value>, child: map<string, Value>)
    requires inherited.Keys <= child.Keys
    ensures SeenBelow(inherited, child) == child
  {
  }

  /** Two one-key objects with different keys merge into the two-key object. */
  lemma OneKeyEach(k1: string, v1: Value, k2: string, v2: Value)
    requires k1 != k2
    ensures DeepMerge(Plain(map[k1 := v1]), Plain(map[k2 := v2])) == Plain(map[k1 := v1, k2 := v2])
  {
    DisjointUnion(map[k1 := v1], map[k2 := v2], false, false);
    assert map[k1 := v1] + map[k2 := v2] == map[k1 := v1, k2 := v2];
  }

  /** A map with exactly one given key is the one-entry display. */
  lemma OneEntry(m: map<string, Value>, k: string, v: Value)
    requires m.Keys == {k} && m[k] == v
    ensures m == map[k := v]
  {
  }

  /** A map with exactly two given keys is the two-entry display. */
  lemma TwoEntries(m: map<string, Value>, k1: string, v1: Value, k2: string, v2: Value)
    requires k1 != k2 && m.Keys == {k1, k2} && m[k1] == v1 && m[k2] == v2
    ensures m == map[k1 := v1, k2 := v2]
  {
  }

  /** A map with exactly three given keys is the three-entry display. */
  lemma ThreeEntries(m: map<string, Value>, k1: string, v1: Value, k2: string, v2: Value, k3: string, v3: Value)
    requires k1 != k2 && k1 != k3 && k2 != k3 && m.Keys == {k1, k2, k3}
    requires m[k1] == v1 && m[k2] == v2 && m[k3] == v3
    ensures m == map[k1 := v1, k2 := v2, k3 := v3]
  {
  }

  /** `<Provider a={key1:'foo'} b={key2:'bar'}><Provider a={key3:'buz'}>`: the nearer provider replaces `a`. */
  lemma NestedProvidersOverride(outer: map<string, Value>, inner: map<string, Value>)
    requires outer == map["a" := Plain(map["key1" := Str("foo")]), "b" := Plain(map["key2" := Str("bar")]),
                          "children" := SomeChildren]
    requires inner == map["a" := Plain(map["key3" := Str("buz")]), "children" := SomeChildren]
    ensures SeenBelow(SeenBelow(map[], ProviderContext(outer)), ProviderContext(inner))
      == map["a" := Plain(map["key3" := Str("buz")]), "b" := Plain(map["key2" := Str("bar")])]
  {
    var o := ProviderContext(outer);
    TwoEntries(o, "a", Plain(map["key1" := Str("foo")]), "b", Plain(map["key2" := Str("bar")]));
    assert SeenBelow(map[], o) == o;
    var i := ProviderContext(inner);
    OneEntry(i, "a", Plain(map["key3" := Str("buz")]));
    var seen := SeenBelow(o, i);
    assert seen.Keys == {"a", "b"};
    TwoEntries(seen, "a", Plain(map["key3" := Str("buz")]), "b", Plain(map["key2" := Str("bar")]));
  }

  /** `<Provider a={key1:'foo'}><MergingProvider a={key2:'bar'}>`: without `mergeProps` the two objects are merged. */
  lemma MergeAllByDefault(inherited: map<string, Value>, props: map<string, Value>)
    requires inherited == map["a" := Plain(map["key1" := Str("foo")])]
    requires props == map["a" := Plain(map["key2" := Str("bar")]), "children" := SomeChildren]
    ensures SeenBelow(inherited, MergingContext(props, inherited))
      == map["a" := Plain(map["key1" := Str("foo"), "key2" := Str("bar")])]
  {
    AllKeysMerged(props, inherited, "a");
    OneKeyEach("key1", Str("foo"), "key2", Str("bar"));
    var c := MergingContext(props, inherited);
    MergingContextKeys(props, inherited);
    assert c.Keys == {"a"};
    OneEntry(c, "a", Plain(map["key1" := Str("foo"), "key2" := Str("bar")]));
    SeenBelowCovers(inherited, c);
  }

  /** `mergeProps={['a']}`: `a` is merged, `b` is replaced by the nearer value. */
  lemma MergeSelectedKeys(inherited: map<string, Value>, props: map<string, Value>)
    requires inherited == map["a" := Plain(map["key1" := Str("foo")]), "b" := Plain(map["key2" := Str("bar")])]
    requires props == map["mergeProps" := Obj(map["0" := Str("a")], true),
                          "a" := Plain(map["key3" := Str("baz")]), "b" := Plain(map["key4" := Str("buz")]),
                          "children" := SomeChildren]
    ensures SeenBelow(inherited, MergingContext(props, inherited))
      == map["a" := Plain(map["key1" := Str("foo"), "key3" := Str("baz")]),
             "b" := Plain(map["key4" := Str("buz")])]
  {
    assert props[MergeProps].fields.Values == {Str("a")} by {
      assert props[MergeProps].fields["0"] == Str("a");
    }
    SelectedKeysMerged(props, inherited, "a");
    SelectedKeysMerged(props, inherited, "b");
    OneKeyEach("key1", Str("foo"), "key3", Str("baz"));
    var c := MergingContext(props, inherited);
    MergingContextKeys(props, inherited);
    assert c.Keys == {"a", "b"};
    TwoEntries(c, "a", Plain(map["key1" := Str("foo"), "key3" := Str("baz")]), "b", Plain(map["key4" := Str("buz")]));
    SeenBelowCovers(inherited, c);
  }

  /** The outermost `MergingProvider` of the tests, under an empty context, exposes its props unchanged. */
  lemma OuterMergingProvider(props: map<string, Value>)
    requires props == map["a" := Plain(map["name" := Str("a")]), "b" := Str("b"), "children" := SomeChildren]
    ensures MergingContext(props, map[]) == map["a" := Plain(map["name" := Str("a")]), "b" := Str("b")]
  {
    FreshKeysPassThrough(props, map[]);
    assert props - {Children, MergeProps} == map["a" := Plain(map["name" := Str("a")]), "b" := Str("b")];
  }

  /** `deepAssign({name:'a'}, {name:'notOverwrittenNameA', newProp:'c'})`: the parent's `name` stays, the child's `newProp` is added. */
  lemma ParentNameKept(target: Value, source: Value)
    requires target == Plain(map["name" := Str("a")])
    requires source == Plain(map["name" := Str("notOverwrittenNameA"), "newProp" := Str("c")])
    ensures DeepMerge(target, source) == Plain(map["name" := Str("a"), "newProp" := Str("c")])
  {
    ObjectCase(target, source);
    var r := DeepMerge(target, source);
    assert r.fields.Keys == {"name", "newProp"};
    assert r.fields["name"] == Str("a");
    assert r.fields["newProp"] == Str("c");
    assert r.fields == map["name" := Str("a"), "newProp" := Str("c")];
  }

  /**
   The test that passes `mergeWithParent`: the source merges every key
   anyway, the parent's values win, and `mergeWithParent` itself becomes an
   ordinary context key.
   */
  lemma ParentTakesPrecedence(inherited: map<string, Value>, props: map<string, Value>)
    requires inherited == map["a" := Plain(map["name" := Str("a")]), "b" := Str("b")]
    requires props == map["mergeWithParent" := Bool(true),
                          "a" := Plain(map["name" := Str("notOverwrittenNameA"), "newProp" := Str("c")]),
                          "b" := Str("newB"), "children" := SomeChildren]
    ensures SeenBelow(inherited, MergingContext(props, inherited))
      == map["a" := Plain(map["name" := Str("a"), "newProp" := Str("c")]), "b" := Str("b"),
             "mergeWithParent" := Bool(true)]
  {
    AllKeysMerged(props, inherited, "a");
    AllKeysMerged(props, inherited, "b");
    AllKeysMerged(props, inherited, "mergeWithParent");
    ParentNameKept(inherited["a"], props["a"]);
    var c := MergingContext(props, inherited);
    MergingContextKeys(props, inherited);
    assert c.Keys == {"a", "b", "mergeWithParent"};
    ThreeEntries(c, "a", Plain(map["name" := Str("a"), "newProp" := Str("c")]), "b", Str("b"),
                 "mergeWithParent", Bool(true));
    SeenBelowCovers(inherited, c);
  }

  /** An explicit `a: null` in the parent blocks the child's `a`, while `b` is still merged. */
  lemma NullBlocksMerge(inherited: map<string, Value>, props: map<string, Value>)
    requires inherited == map["a" := Null, "b" := Plain(map["name" := Str("b")])]
    requires props == map["mergeWithParent" := Bool(true),
                          "a" := Plain(map["name" := Str("a"), "newProp" := Str("c")]),
                          "b" := Plain(map["newProp" := Str("d")]), "children" := SomeChildren]
    ensures SeenBelow(inherited, MergingContext(props, inherited))
      == map["a" := Null, "b" := Plain(map["name" := Str("b"), "newProp" := Str("d")]),
             "mergeWithParent" := Bool(true)]
  {
    AllKeysMerged(props, inherited, "a");
    AllKeysMerged(props, inherited, "b");
    AllKeysMerged(props, inherited, "mergeWithParent");
    OneKeyEach("name", Str("b"), "newProp", Str("d"));
    var c := MergingContext(props, inherited);
    MergingContextKeys(props, inherited);
    assert c.Keys == {"a", "b", "mergeWithParent"};
    ThreeEntries(c, "a", Null, "b", Plain(map["name" := Str("b"), "newProp" := Str("d")]),
                 "mergeWithParent", Bool(true));
    SeenBelowCovers(inherited, c);
  }

  /**
   The test that expects a nested `MergingProvider` without a selector to
   overwrite `a`: the source merges instead, and the parent's object wins
   over the child's string.
   */
  lemma NoSelectorStillMerges(inherited: map<string, Value>, props: map<string, Value>)
    requires inherited == map["a" := Plain(map["name" := Str("a")]), "b" := Str("b")]
    requires props == map["a" := Str("overwrittenA"), "children" := SomeChildren]
    ensures SeenBelow(inherited, MergingContext(props, inherited)) == inherited
    ensures SeenBelow(inherited, MergingContext(props, inherited))["a"] != Str("overwrittenA")
  {
    AllKeysMerged(props, inherited, "a");
    var c := MergingContext(props, inherited);
    MergingContextKeys(props, inherited);
    assert c.Keys == {"a"};
    var seen := SeenBelow(inherited, c);
    assert seen.Keys == {"a", "b"};
    TwoEntries(seen, "a", Plain(map["name" := Str("a")]), "b", Str("b"));
  }

  /** `provide({a: "b"})(Demo).getWrappedComponent() === Demo`, also through a second wrapper. */
  lemma UnwrapDemo(demo: nat)
    ensures GetWrappedComponent(Provide(map["a" := Str("b")], Base(demo))) == Base(demo)
    ensures GetWrappedComponent(MergingProvide(map["a" := Str("b")], Base(demo))) == Base(demo)
    ensures GetWrappedComponent(MergingProvide(map[], Provide(map["a" := Str("b")], Base(demo)))) == Base(demo)
  {
  }
}
