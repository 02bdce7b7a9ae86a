/** Finalizer list maintenance on an object's metadata (package `shared`).
    Both operations replace the metadata's finalizer slice in place. */
module Finalizers {

  /** The part of Kubernetes object metadata these helpers touch. */
  class ObjectMeta {
    var finalizers: seq<string>

    constructor (finalizers: seq<string>)
      ensures this.finalizers == finalizers
    {
      this.finalizers := finalizers;
    }
  }

  /** The finalizer list after `f` has been ensured: unchanged when `f` is
      already listed, otherwise `f` appended at the end. */
  function WithFinalizer(fs: seq<string>, f: string): (r: seq<string>)
    ensures f in r
    ensures |fs| <= |r| && r[..|fs|] == fs
    ensures |r| == if f in fs then |fs| else |fs| + 1
  {
    if f in fs then fs else fs + [f]
  }

  /** `fs` with every occurrence of `f` filtered out, order kept. */
  function Without(fs: seq<string>, f: string): (r: seq<string>)
    ensures f !in r
    ensures |r| <= |fs|
    ensures forall x :: x != f ==> multiset(r)[x] == multiset(fs)[x]
  {
    if fs == [] then []
    else
      var init := fs[..|fs| - 1];
      assert fs == init + [fs[|fs| - 1]];
      Without(init, f) + if fs[|fs| - 1] == f then [] else [fs[|fs| - 1]]
  }

  /** EnsureFinalizer: scan for `expectedFinalizer`; return early when it is
      present, otherwise append it. */
  method EnsureFinalizer(objectMeta: ObjectMeta, expectedFinalizer: string)
    modifies objectMeta
    ensures objectMeta.finalizers == WithFinalizer(old(objectMeta.finalizers), expectedFinalizer)
  {
    var i := 0;
    while i < |objectMeta.finalizers|
      invariant 0 <= i <= |objectMeta.finalizers|
      invariant objectMeta.finalizers == old(objectMeta.finalizers)
      invariant expectedFinalizer !in objectMeta.finalizers[..i]
    {
      if objectMeta.finalizers[i] == expectedFinalizer {
        return;
      }
      i := i + 1;
    }
    assert objectMeta.finalizers[..i] == objectMeta.finalizers;
    objectMeta.finalizers := objectMeta.finalizers + [expectedFinalizer];
  }

  /** RemoveFinalizer: copy every finalizer other than `deletingFinalizer`
      into a fresh list and install it. */
  method RemoveFinalizer(objectMeta: ObjectMeta, deletingFinalizer: string)
    modifies objectMeta
    ensures objectMeta.finalizers == Without(old(objectMeta.finalizers), deletingFinalizer)
  {
    var outFinalizers: seq<string> := [];
    var i := 0;
    while i < |objectMeta.finalizers|
      invariant 0 <= i <= |objectMeta.finalizers|
      invariant objectMeta.finalizers == old(objectMeta.finalizers)
      invariant outFinalizers == Without(objectMeta.finalizers[..i], deletingFinalizer)
    {
      var finalizer := objectMeta.finalizers[i];
      assert objectMeta.finalizers[..i + 1][..i] == objectMeta.finalizers[..i];
      if finalizer == deletingFinalizer {
        i := i + 1;
        continue;
      }
      outFinalizers := outFinalizers + [finalizer];
      i := i + 1;
    }
    assert objectMeta.finalizers[..i] == objectMeta.finalizers;
    objectMeta.finalizers := outFinalizers;
  }

  /** Ensuring the same finalizer twice is the same as ensuring it once. */
  lemma EnsureFinalizerIdempotent(fs: seq<string>, f: string)
    ensures WithFinalizer(WithFinalizer(fs, f), f) == WithFinalizer(fs, f)
  {
  }

  /** Filtering distributes over concatenation. */
  lemma {:induction false} WithoutConcat(a: seq<string>, b: seq<string>, f: string)
    ensures Without(a + b, f) == Without(a, f) + Without(b, f)
    decreases |b|
  {
    if b == [] {
      assert a + b == a;
    } else {
      var b' := b[..|b| - 1];
      var x := b[|b| - 1];
      assert (a + b)[..|a + b| - 1] == a + b';
      assert b[..|b| - 1] == b';
      WithoutConcat(a, b', f);
    }
  }

  /** Removing a finalizer that is not listed leaves the list as it was. */
  lemma {:induction false} WithoutAbsent(fs: seq<string>, f: string)
    requires f !in fs
    ensures Without(fs, f) == fs
  {
    if fs != [] {
      var init := fs[..|fs| - 1];
      assert fs == init + [fs[|fs| - 1]];
      WithoutAbsent(init, f);
    }
  }

  /** Removing a finalizer twice is the same as removing it once. */
  lemma RemoveFinalizerIdempotent(fs: seq<string>, f: string)
    ensures Without(Without(fs, f), f) == Without(fs, f)
  {
    WithoutAbsent(Without(fs, f), f);
  }

  /** Removing a finalizer undoes ensuring it. */
  lemma RemoveAfterEnsure(fs: seq<string>, f: string)
    ensures Without(WithFinalizer(fs, f), f) == Without(fs, f)
  {
    if f !in fs {
      WithoutConcat(fs, [f], f);
      assert [f][..0] == [];
    }
  }

  /** Ensuring a finalizer after removing it puts it back exactly once, at
      the end. */
  lemma EnsureAfterRemove(fs: seq<string>, f: string)
    ensures WithFinalizer(Without(fs, f), f) == Without(fs, f) + [f]
    ensures multiset(WithFinalizer(Without(fs, f), f))[f] == 1
  {
    assert multiset(Without(fs, f))[f] == 0;
  }
}
