/**
 * The real-time update callback registry of the PetTracer API client
 * (custom_components/pettracer/api.py, register_callback,
 * unregister_callback, _notify_callbacks). Callbacks are compared by
 * equality, as Python's `in` and `list.remove` compare them.
 */
module Callbacks {

  /** Registration appends; a callback registered twice is held twice. */
  function Register<C(==)>(registry: seq<C>, callback: C): (r: seq<C>)
    ensures |r| == |registry| + 1 && r[..|registry|] == registry && r[|registry|] == callback
    ensures multiset(r)[callback] == multiset(registry)[callback] + 1
  {
    registry + [callback]
  }

  /** Position of the first occurrence of `callback`. */
  function FirstIndex<C(==)>(registry: seq<C>, callback: C): (i: nat)
    requires callback in registry
    ensures i < |registry| && registry[i] == callback && callback !in registry[..i]
  {
    if registry[0] == callback then 0
    else
      assert callback in registry[1..] by {
        var k :| 0 <= k < |registry| && registry[k] == callback;
        assert registry[1..][k - 1] == callback;
      }
      1 + FirstIndex(registry[1..], callback)
  }

  /** Unregistration removes the first occurrence, and does nothing for an unknown callback. */
  function Unregister<C(==)>(registry: seq<C>, callback: C): (r: seq<C>)
    ensures callback !in registry ==> r == registry
    ensures callback in registry ==>
              && |r| == |registry| - 1
              && multiset(r) == multiset(registry) - multiset{callback}
              && exists i :: 0 <= i < |registry| && registry[i] == callback && callback !in registry[..i]
                                                && r == registry[..i] + registry[i + 1..]
  {
    if callback in registry then
      var i := FirstIndex(registry, callback);
      assert registry == registry[..i] + [callback] + registry[i + 1..];
      registry[..i] + registry[i + 1..]
    else registry
  }

  /** Registering a new callback and unregistering it again restores the registry. */
  lemma RegisterUnregisterFresh<C>(registry: seq<C>, callback: C)
    requires callback !in registry
    ensures Unregister(Register(registry, callback), callback) == registry
  {
  }

  /** Registering and unregistering the same callback never changes which callbacks are held, or how often. */
  lemma RegisterUnregisterMultiset<C>(registry: seq<C>, callback: C)
    ensures multiset(Unregister(Register(registry, callback), callback)) == multiset(registry)
  {
  }

  /** The callbacks of `registry` that raise on `data`, one entry per raising call, in call order. */
  function Raising<C, D>(registry: seq<C>, data: D, raises: (C, D) -> bool): (failed: seq<C>)
    ensures |failed| <= |registry|
  {
    if |registry| == 0 then []
    else
      var last := registry[|registry| - 1];
      var front := registry[..|registry| - 1];
      assert registry == front + [last];
      Raising(front, data, raises) + (if raises(last, data) then [last] else [])
  }

  /** Each callback is logged as often as it is registered if it raises, and never otherwise. */
  lemma {:induction false} RaisingCounts<C, D>(registry: seq<C>, data: D, raises: (C, D) -> bool, c: C)
    ensures multiset(Raising(registry, data, raises))[c] == (if raises(c, data) then multiset(registry)[c] else 0)
  {
    if |registry| > 0 {
      var last := registry[|registry| - 1];
      var front := registry[..|registry| - 1];
      assert registry == front + [last];
      RaisingCounts(front, data, raises, c);
    }
  }

  /** Calling one more callback adds its log entry, if any, at the end. */
  lemma RaisingAppend<C, D>(front: seq<C>, last: C, data: D, raises: (C, D) -> bool)
    ensures Raising(front + [last], data, raises)
            == Raising(front, data, raises) + (if raises(last, data) then [last] else [])
  {
    var s := front + [last];
    assert s[..|s| - 1] == front;
  }

  /**
   * Notification calls each registered callback once, in list order, with
   * the same data; a callback that raises is logged and the loop moves on.
   * `raises(c, data)` says whether callback `c` raises an `Exception` on `data`;
   * a BaseException such as KeyboardInterrupt or SystemExit is not caught and
   * is not modelled. Returns the
   * callbacks called, in call order, and one log entry per raising call.
   */
  method NotifyCallbacks<C(==), D>(registry: seq<C>, data: D, raises: (C, D) -> bool)
    returns (called: seq<C>, failed: seq<C>)
    ensures called == registry
    ensures failed == Raising(registry, data, raises)
    ensures forall c :: multiset(failed)[c] == (if raises(c, data) then multiset(registry)[c] else 0)
  {
    called, failed := [], [];
    var i := 0;
    while i < |registry|
      invariant 0 <= i <= |registry|
      invariant called == registry[..i]
      invariant failed == Raising(registry[..i], data, raises)
    {
      var callback := registry[i];
      called := called + [callback];
      if raises(callback, data) {
        failed := failed + [callback];
      }
      RaisingAppend(registry[..i], callback, data, raises);
      assert registry[..i + 1] == registry[..i] + [callback];
      i := i + 1;
    }
    assert registry[..i] == registry;
    forall c {
      RaisingCounts(registry, data, raises, c);
    }
  }
}
