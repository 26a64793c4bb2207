/** The metadata edits of pkg/helper: finalizer lists and annotation maps. */
module Finalizers {
  import opened Basics

  datatype MetaValue = MetaValue(labels: map<string, string>, annotations: map<string, string>, finalizers: seq<string>)

  /** An object's metadata; a nil annotation map and an empty one are not told apart. */
  class ObjectMeta {
    var labels: map<string, string>
    var annotations: map<string, string>
    var finalizers: seq<string>

    constructor (v: MetaValue)
      ensures Value() == v
    {
      labels, annotations, finalizers := v.labels, v.annotations, v.finalizers;
    }

    function Value(): MetaValue
      reads this
    {
      MetaValue(labels, annotations, finalizers)
    }
  }

  /** The list with each finalizer of fs that is missing appended. */
  function AddAll(m: seq<string>, fs: seq<string>): seq<string>
    decreases |fs|
  {
    if fs == [] then m else AddAll(if fs[0] in m then m else m + [fs[0]], fs[1..])
  }

  /** The list without the first occurrence of f. */
  function RemoveFirst(m: seq<string>, f: string): seq<string> {
    if m == [] then [] else if m[0] == f then m[1..] else [m[0]] + RemoveFirst(m[1..], f)
  }

  /** The list without one occurrence for each element of fs. */
  function RemoveAll(m: seq<string>, fs: seq<string>): seq<string>
    decreases |fs|
  {
    if fs == [] then m else RemoveAll(RemoveFirst(m, fs[0]), fs[1..])
  }

  method AddFinalizers(obj: ObjectMeta, finalizers: seq<string>)
    modifies obj`finalizers
    ensures obj.finalizers == AddAll(old(obj.finalizers), finalizers)
  {
    assert finalizers[0..] == finalizers;
    for n := 0 to |finalizers|
      invariant AddAll(obj.finalizers, finalizers[n..]) == AddAll(old(obj.finalizers), finalizers)
    {
      var f, found := finalizers[n], false;
      for i := 0 to |obj.finalizers|
        invariant !found && f !in obj.finalizers[..i]
      {
        if f == obj.finalizers[i] {
          found := true;
          break;
        }
      }
      assert !found ==> obj.finalizers[..|obj.finalizers|] == obj.finalizers;
      assert finalizers[n..][1..] == finalizers[n + 1..];
      if !found {
        obj.finalizers := obj.finalizers + [f];
      }
    }
  }

  method RemoveFinalizers(obj: ObjectMeta, finalizers: seq<string>)
    modifies obj`finalizers
    ensures obj.finalizers == RemoveAll(old(obj.finalizers), finalizers)
  {
    assert finalizers[0..] == finalizers;
    for n := 0 to |finalizers|
      invariant RemoveAll(obj.finalizers, finalizers[n..]) == RemoveAll(old(obj.finalizers), finalizers)
    {
      var f := finalizers[n];
      assert finalizers[n..][1..] == finalizers[n + 1..];
      ghost var before := obj.finalizers;
      var i := 0;
      while i < |obj.finalizers|
        invariant 0 <= i <= |obj.finalizers| && obj.finalizers == before && f !in before[..i]
      {
        if obj.finalizers[i] == f {
          obj.finalizers := obj.finalizers[..i] + obj.finalizers[i + 1..];
          break;
        }
        i := i + 1;
      }
      RemoveFirstAt(before, f, i);
    }
  }

  lemma {:induction false} RemoveFirstAt(m: seq<string>, f: string, i: nat)
    requires i <= |m| && f !in m[..i] && (i < |m| ==> m[i] == f)
    ensures RemoveFirst(m, f) == if i < |m| then m[..i] + m[i + 1..] else m
  {
    if i > 0 {
      RemoveFirstLater(m, f, i);
      RemoveFirstAt(m[1..], f, i - 1);
      SplicedLater(m, i);
    }
  }

  lemma RemoveFirstLater(m: seq<string>, f: string, i: nat)
    requires 0 < i <= |m| && f !in m[..i]
    ensures RemoveFirst(m, f) == [m[0]] + RemoveFirst(m[1..], f) && f !in m[1..][..i - 1]
  {
    assert m[0] in m[..i];
    assert m[1..][..i - 1] == m[..i][1..];
  }

  lemma SplicedLater<T>(m: seq<T>, i: nat)
    requires 0 < i <= |m|
    ensures [m[0]] + m[1..] == m
    ensures i < |m| ==> [m[0]] + (m[1..][..i - 1] + m[1..][i..]) == m[..i] + m[i + 1..]
  {
    assert [m[0]] + m[1..][..i - 1] == m[..i];
    assert i < |m| ==> m[1..][i..] == m[i + 1..];
  }

  method RemoveAnnotations(obj: ObjectMeta, annotations: map<string, string>)
    modifies obj`annotations
    ensures obj.annotations == old(obj.annotations) - annotations.Keys
  {
    var rest := annotations.Keys;
    while rest != {}
      invariant rest <= annotations.Keys
      invariant obj.annotations == old(obj.annotations) - (annotations.Keys - rest)
      decreases rest
    {
      var k :| k in rest;
      obj.annotations, rest := obj.annotations - {k}, rest - {k};
    }
  }

  /** What Add appends: the finalizers of fs missing from m, once each. */
  function Missing(m: seq<string>, fs: seq<string>): (r: seq<string>)
    ensures forall x :: x in r <==> x in fs && x !in m
    ensures NoDuplicates(r)
    decreases |fs|
  {
    if fs == [] then []
    else if fs[0] in m then Missing(m, fs[1..])
    else
      var rest := Missing(m + [fs[0]], fs[1..]);
      assert fs[0] !in rest;
      [fs[0]] + rest
  }

  /** Add keeps the list as a prefix and appends exactly what was missing. */
  lemma {:induction false} AddAppends(m: seq<string>, fs: seq<string>)
    ensures AddAll(m, fs) == m + Missing(m, fs)
    decreases |fs|
  {
    if fs != [] {
      AddAppends(if fs[0] in m then m else m + [fs[0]], fs[1..]);
    }
  }

  lemma {:induction false} AddNothing(m: seq<string>, fs: seq<string>)
    requires forall f | f in fs :: f in m
    ensures AddAll(m, fs) == m
  {
    if fs != [] { AddNothing(m, fs[1..]); }
  }

  /** Add is idempotent. */
  lemma AddTwice(m: seq<string>, fs: seq<string>)
    ensures AddAll(AddAll(m, fs), fs) == AddAll(m, fs)
  {
    AddAppends(m, fs);
    AddNothing(AddAll(m, fs), fs);
  }

  lemma {:induction false} RemoveFirstOfBoth(m: seq<string>, n: seq<string>, f: string)
    ensures RemoveFirst(m + n, f) == if f in m then RemoveFirst(m, f) + n else m + RemoveFirst(n, f)
  {
    if m == [] {
      assert m + n == n;
    } else {
      var head, rest := [m[0]], m[1..];
      assert m == head + rest;
      Associates(head, rest, n);
      if m[0] != f {
        RemoveFirstOfBoth(rest, n, f);
        Associates(head, RemoveFirst(rest, f), n);
        Associates(head, rest, RemoveFirst(n, f));
      }
    }
  }

  lemma Associates<T>(a: seq<T>, b: seq<T>, c: seq<T>)
    ensures a + b + c == a + (b + c)
    ensures |a| == 1 ==> (a + b + c)[0] == a[0] && (a + b + c)[1..] == b + c
  {
    assert (a + (b + c))[|a|..] == b + c;
  }

  lemma {:induction false} RemoveFirstCounts(m: seq<string>, f: string)
    ensures multiset(RemoveFirst(m, f)) == multiset(m) - multiset{f}
  {
    if m != [] {
      assert m == [m[0]] + m[1..];
      RemoveFirstCounts(m[1..], f);
    }
  }

  /** Remove takes away one occurrence for each mention, and nothing else. */
  lemma {:induction false} RemoveCounts(m: seq<string>, fs: seq<string>)
    ensures multiset(RemoveAll(m, fs)) == multiset(m) - multiset(fs)
    decreases |fs|
  {
    if fs != [] {
      assert fs == [fs[0]] + fs[1..];
      RemoveFirstCounts(m, fs[0]);
      RemoveCounts(RemoveFirst(m, fs[0]), fs[1..]);
    }
  }

  lemma {:induction false} RemoveNoDuplicates(n: seq<string>, f: string)
    requires NoDuplicates(n)
    ensures NoDuplicates(RemoveFirst(n, f)) && f !in RemoveFirst(n, f)
    ensures forall x | x in RemoveFirst(n, f) :: x in n
  {
    if n != [] {
      assert NoDuplicates(n[1..]);
      RemoveNoDuplicates(n[1..], f);
      var r := RemoveFirst(n[1..], f);
      if n[0] != f {
        assert forall i | 0 <= i < |r| :: r[i] in n[1..];
      }
    }
  }

  /** Removing fs clears what was appended behind m, and does to m what it would do to m alone. */
  lemma {:induction false} RemoveBehind(m: seq<string>, n: seq<string>, fs: seq<string>)
    requires NoDuplicates(n) && forall x | x in n :: x in fs && x !in m
    ensures RemoveAll(m + n, fs) == RemoveAll(m, fs)
    decreases |fs|
  {
    if fs == [] {
      var x := (n + [""])[0];
      assert n == [] || x in n;
      assert m + n == m;
    } else {
      var f := fs[0];
      RemoveFirstOfBoth(m, n, f);
      RemoveFirstCounts(m, f);
      RemoveNoDuplicates(n, f);
      if f in m {
        forall x | x in n ensures x !in RemoveFirst(m, f) {
          assert x !in multiset(m);
          assert x !in multiset(RemoveFirst(m, f));
        }
        RemoveBehind(RemoveFirst(m, f), n, fs[1..]);
      } else {
        NothingToRemove(m, f);
        RemoveBehind(m, RemoveFirst(n, f), fs[1..]);
      }
    }
  }

  lemma {:induction false} NothingToRemove(m: seq<string>, f: string)
    requires f !in m
    ensures RemoveFirst(m, f) == m
  {
    if m != [] { NothingToRemove(m[1..], f); }
  }

  /** Removing what was just added is removing it from the original list, for all lists, duplicates allowed. */
  lemma RemoveAfterAdd(m: seq<string>, fs: seq<string>)
    ensures RemoveAll(AddAll(m, fs), fs) == RemoveAll(m, fs)
  {
    AddAppends(m, fs);
    RemoveBehind(m, Missing(m, fs), fs);
  }

  lemma {:induction false} AddThenRemoveOne(m: seq<string>, a: seq<string>, f: string)
    requires f !in a
    ensures RemoveFirst(AddAll(m, a), f) == AddAll(RemoveFirst(m, f), a)
    decreases |a|
  {
    if a != [] {
      RemoveFirstCounts(m, f);
      assert a[0] in RemoveFirst(m, f) <==> a[0] in m by {
        assert multiset(RemoveFirst(m, f))[a[0]] == multiset(m)[a[0]];
      }
      var m' := if a[0] in m then m else m + [a[0]];
      AddThenRemoveOne(m', a[1..], f);
      if a[0] !in m {
        RemoveFirstOfBoth(m, [a[0]], f);
        NothingToRemove([a[0]], f);
        if f !in m { NothingToRemove(m, f); }
      }
    }
  }

  /** Adding a and removing r commute, as exact sequences, when they share no finalizer. */
  lemma {:induction false} AddRemoveCommute(m: seq<string>, a: seq<string>, r: seq<string>)
    requires forall f | f in r :: f !in a
    ensures RemoveAll(AddAll(m, a), r) == AddAll(RemoveAll(m, r), a)
    decreases |r|
  {
    if r != [] {
      AddThenRemoveOne(m, a, r[0]);
      AddRemoveCommute(RemoveFirst(m, r[0]), a, r[1..]);
    }
  }
}
