/** Go's `context.Context` as far as values go: an append-only chain of
    key/value bindings, where `context.WithValue` derives a child holding one
    more binding and `Value(key)` answers with the innermost binding of `key`.
    Go compares the keys of this system as strings. */
module Contexts {
  import opened Prelude

  datatype Binding<V> = Binding(key: GoString, val: V)

  /** `bindings` runs from the root (`context.Background()`) outwards: the last
      binding is the innermost one. */
  datatype Context<V> = Context(bindings: seq<Binding<V>>) {

    /** `ctx.Value(key)`: the value of the innermost binding of `key`, None
        when no binding on the chain has that key. */
    function Value(key: GoString): (r: Option<V>)
      ensures r.None? <==> forall i | 0 <= i < |bindings| :: bindings[i].key != key
      ensures r.Some? ==> exists i | 0 <= i < |bindings| ::
                            && bindings[i] == Binding(key, r.value)
                            && forall j | i < j < |bindings| :: bindings[j].key != key
      decreases |bindings|
    {
      if |bindings| == 0 then None
      else
        var last := bindings[|bindings| - 1];
        if last.key == key then
          assert bindings[|bindings| - 1] == Binding(key, last.val);
          Some(last.val)
        else
          var r := Context(bindings[..|bindings| - 1]).Value(key);
          LiftInnermost(bindings, bindings[..|bindings| - 1], key, r);
          r
    }
  }

  /** What `Value` finds on the chain without its innermost binding, when
      that binding has another key, holds for the whole chain. */
  lemma LiftInnermost<V>(b: seq<Binding<V>>, outer: seq<Binding<V>>, key: GoString, r: Option<V>)
    requires |b| > 0 && outer == b[..|b| - 1] && b[|b| - 1].key != key
    requires r.None? <==> forall i | 0 <= i < |outer| :: outer[i].key != key
    requires r.Some? ==> exists i | 0 <= i < |outer| ::
                           && outer[i] == Binding(key, r.value)
                           && forall j | i < j < |outer| :: outer[j].key != key
    ensures r.None? <==> forall i | 0 <= i < |b| :: b[i].key != key
    ensures r.Some? ==> exists i | 0 <= i < |b| ::
                          && b[i] == Binding(key, r.value)
                          && forall j | i < j < |b| :: b[j].key != key
  {
    assert forall i | 0 <= i < |outer| :: outer[i] == b[i];
    if r.Some? {
      var i :| 0 <= i < |outer| && outer[i] == Binding(key, r.value)
               && forall j | i < j < |outer| :: outer[j].key != key;
      assert b[i] == Binding(key, r.value);
      assert forall j | i < j < |b| :: b[j].key != key;
    }
  }

  /** `context.Background()`: the root, which holds no binding. */
  function Background<V>(): (root: Context<V>)
  {
    Context([])
  }

  /** `context.WithValue(parent, key, val)`: a child that keeps every
      binding of its parent, in order, and adds exactly one, innermost. What
      the child answers is `WithValueLookup`. */
  function WithValue<V>(parent: Context<V>, key: GoString, val: V): (child: Context<V>)
    ensures |child.bindings| == |parent.bindings| + 1
    ensures child.bindings[..|parent.bindings|] == parent.bindings
  {
    Context(parent.bindings + [Binding(key, val)])
  }

  /** `ctx.Value(key)` is `val` exactly when some binding of `key` to `val`
      has no binding of `key` inside it. */
  lemma ValueIsInnermost<V>(ctx: Context<V>, key: GoString, val: V)
    ensures ctx.Value(key) == Some(val) <==>
              exists i | 0 <= i < |ctx.bindings| ::
                && ctx.bindings[i] == Binding(key, val)
                && forall j | i < j < |ctx.bindings| :: ctx.bindings[j].key != key
  {
    var b := ctx.bindings;
    if i :| 0 <= i < |b| && b[i] == Binding(key, val) && forall j | i < j < |b| :: b[j].key != key {
      assert ctx.Value(key).Some?;
      var k :| 0 <= k < |b| && b[k] == Binding(key, ctx.Value(key).value)
               && forall j | k < j < |b| :: b[j].key != key;
      assert !(i < k) && !(k < i);
    }
  }

  /** A child answers for its own key with its own value and for every other
      key exactly as its parent does. */
  lemma WithValueLookup<V>(parent: Context<V>, key: GoString, val: V)
    ensures WithValue(parent, key, val).Value(key) == Some(val)
    ensures forall k | k != key :: WithValue(parent, key, val).Value(k) == parent.Value(k)
  {
    var child := WithValue(parent, key, val);
    assert child.bindings[..|child.bindings| - 1] == parent.bindings;
  }
}
