/** When the order in which Go ranges over the hook configuration does not matter, and what hooks never do. */
module HookTheorems {
  import opened Basics
  import opened Finalizers
  import opened Hook

  function AddFor(e: EventType): ActionType {
    if e == CreateVolume then AddOnCreate else AddOnDelete
  }

  function RemoveFor(e: EventType): ActionType {
    if e == CreateVolume then RemoveOnCreate else RemoveOnDelete
  }

  /** The keys of an order that ask for an edit. */
  function Active(config: Configuration, order: seq<ActionType>, r: Resource, e: EventType): (s: seq<ActionType>)
    ensures forall a :: a in s <==> a in order && Asked(config, a, r, e).Some?
  {
    if order == [] then [] else
    (if Asked(config, order[0], r, e).Some? then [order[0]] else []) + Active(config, order[1..], r, e)
  }

  lemma {:induction false} FoldActive(
    config: Configuration, order: seq<ActionType>, m: MetaValue, kind: ObjectKind, r: Resource, e: EventType,
    now: Clock)
    ensures Fold(config, order, m, kind, r, e, now) == Fold(config, Active(config, order, r, e), m, kind, r, e, now)
  {
    if order != [] {
      var a, rest := order[0], Active(config, order[1..], r, e);
      match Asked(config, a, r, e)
      case None =>
        assert Active(config, order, r, e) == rest;
        FoldActive(config, order[1..], m, kind, r, e, now);
      case Some((entry, op)) =>
        assert Active(config, order, r, e) == [a] + rest && ([a] + rest)[1..] == rest;
        FoldActive(config, order[1..], Edit(m, entry, op, now), kind, r, e, now);
    }
  }

  lemma {:induction false} ActiveDistinct(config: Configuration, order: seq<ActionType>, r: Resource, e: EventType)
    requires NoDuplicates(order)
    ensures NoDuplicates(Active(config, order, r, e))
  {
    if order != [] {
      assert NoDuplicates(order[1..]);
      ActiveDistinct(config, order[1..], r, e);
      assert order[0] !in order[1..];
    }
  }

  /** A list without repetitions over two elements is one of five. */
  lemma TwoElements(s: seq<ActionType>, a: ActionType, d: ActionType)
    requires NoDuplicates(s) && a != d && forall i | 0 <= i < |s| :: s[i] == a || s[i] == d
    ensures if a in s && d in s then s == [a, d] || s == [d, a]
            else if a in s then s == [a] else if d in s then s == [d] else s == []
  {
    if |s| >= 1 {
      assert s[0] in s;
    }
    if |s| >= 2 {
      assert s[1] in s && s[0] != s[1];
      var x, y, z := s[0], s[1], (s + [a])[2];
      assert |s| == 2 || (z != x && z != y);
    }
  }

  /** At most two keys ask for an edit on one event: the adding one and the removing one. */
  lemma ActiveShape(config: Configuration, order: seq<ActionType>, r: Resource, e: EventType)
    requires IsOrder(config, order)
    ensures var s := Active(config, order, r, e); var a, d := AddFor(e), RemoveFor(e);
      var hasA, hasD := Asked(config, a, r, e).Some?, Asked(config, d, r, e).Some?;
      if hasA && hasD then s == [a, d] || s == [d, a] else if hasA then s == [a] else if hasD then s == [d] else s == []
  {
    var s := Active(config, order, r, e);
    ActiveDistinct(config, order, r, e);
    forall i | 0 <= i < |s| ensures s[i] == AddFor(e) || s[i] == RemoveFor(e) {
      assert s[i] in s;
    }
    TwoElements(s, AddFor(e), RemoveFor(e));
  }

  predicate Disjoint(a: Entry, d: Entry) {
    a.annotations.Keys !! d.annotations.Keys && forall f | f in a.finalizers :: f !in d.finalizers
  }

  /** The adding and the removing edit commute when they share no annotation key and no finalizer. */
  lemma EditsCommute(m: MetaValue, a: Entry, d: Entry, now: Clock)
    requires Disjoint(a, d)
    ensures Edit(Edit(m, a, AddOrUpdate, now), d, Remove, now) == Edit(Edit(m, d, Remove, now), a, AddOrUpdate, now)
  {
    AddRemoveCommute(m.finalizers, a.finalizers, d.finalizers);
    var add := Substituted(a.annotations, now);
    assert m.annotations + add - d.annotations.Keys == m.annotations - d.annotations.Keys + add;
  }

  /** If they share one, they disagree already on an object without metadata. */
  lemma EditsClash(a: Entry, d: Entry, now: Clock)
    requires !Disjoint(a, d)
    ensures var m := MetaValue(map[], map[], []);
      Edit(Edit(m, a, AddOrUpdate, now), d, Remove, now) != Edit(Edit(m, d, Remove, now), a, AddOrUpdate, now)
  {
    var m := MetaValue(map[], map[], []);
    var x, y := Edit(Edit(m, a, AddOrUpdate, now), d, Remove, now), Edit(Edit(m, d, Remove, now), a, AddOrUpdate, now);
    if !(a.annotations.Keys !! d.annotations.Keys) {
      var k :| k in a.annotations.Keys && k in d.annotations.Keys;
      assert k in y.annotations && k !in x.annotations;
    } else {
      var f :| f in a.finalizers && f in d.finalizers;
      AddAppends([], a.finalizers);
      AddAppends(RemoveAll([], d.finalizers), a.finalizers);
      assert f in y.finalizers;
      AddedOnceThenRemoved(a.finalizers, d.finalizers, f);
    }
  }

  lemma AddedOnceThenRemoved(a: seq<string>, d: seq<string>, f: string)
    requires f in d
    ensures f !in RemoveAll(AddAll([], a), d)
  {
    AddAppends([], a);
    var m := AddAll([], a);
    assert m == Missing([], a);
    RemoveCounts(m, d);
    AtMostOnce(m, f);
    assert multiset(RemoveAll(m, d))[f] == 0;
  }

  lemma {:induction false} AtMostOnce(m: seq<string>, f: string)
    requires NoDuplicates(m)
    ensures multiset(m)[f] <= 1
  {
    if m != [] {
      assert m == [m[0]] + m[1..];
      assert NoDuplicates(m[1..]);
      AtMostOnce(m[1..], f);
      assert m[0] !in m[1..];
    }
  }

  /** Action yields the same object and the same error status for every order. */
  ghost predicate Confluent(config: Configuration, r: Resource, e: EventType) {
    forall m, kind, now: Clock, o1, o2 | IsOrder(config, o1) && IsOrder(config, o2) ::
      Fold(config, o1, m, kind, r, e, now) == Fold(config, o2, m, kind, r, e, now)
  }

  /** The adding and the removing key both have an entry for this resource and event, and the entries overlap. */
  ghost predicate Overlapping(config: Configuration, r: Resource, e: EventType) {
    var a, d := Asked(config, AddFor(e), r, e), Asked(config, RemoveFor(e), r, e);
    a.Some? && d.Some? && !Disjoint(a.value.0, d.value.0)
  }

  lemma FoldTwo(
    config: Configuration, x: ActionType, y: ActionType, m: MetaValue, kind: ObjectKind, r: Resource, e: EventType,
    now: Clock)
    requires Asked(config, x, r, e).Some? && Asked(config, y, r, e).Some?
    ensures var (ex, opx) := Asked(config, x, r, e).value; var (ey, opy) := Asked(config, y, r, e).value;
      Fold(config, [x, y], m, kind, r, e, now)
        == if kind != KindOf(r) then (m, true) else (Edit(Edit(m, ex, opx, now), ey, opy, now), false)
  {
    assert [x, y][1..] == [y] && [y][1..] == [];
    var (ex, opx) := Asked(config, x, r, e).value;
    var (ey, opy) := Asked(config, y, r, e).value;
    if kind == KindOf(r) {
      var m1 := Edit(m, ex, opx, now);
      var m2 := Edit(m1, ey, opy, now);
      assert Fold(config, [], m2, kind, r, e, now) == (m2, false);
      assert Fold(config, [y], m1, kind, r, e, now) == (m2, false);
    }
  }

  const MIDNIGHT: Clock := (key: string) => "00:00"

  /** Two orders that put the clashing keys first, one way and the other. */
  lemma OverlapShows(config: Configuration, r: Resource, e: EventType)
    returns (o1: seq<ActionType>, o2: seq<ActionType>)
    requires Overlapping(config, r, e)
    ensures IsOrder(config, o1) && IsOrder(config, o2)
    ensures Fold(config, o1, MetaValue(map[], map[], []), KindOf(r), r, e, MIDNIGHT)
         != Fold(config, o2, MetaValue(map[], map[], []), KindOf(r), r, e, MIDNIGHT)
  {
    var x, y := AddFor(e), RemoveFor(e);
    var m := MetaValue(map[], map[], []);
    o1 := FirstTwo(config, x, y);
    o2 := FirstTwo(config, y, x);
    FoldsTo(config, o1, x, y, m, KindOf(r), r, e, MIDNIGHT);
    FoldsTo(config, o2, y, x, m, KindOf(r), r, e, MIDNIGHT);
    FoldTwo(config, x, y, m, KindOf(r), r, e, MIDNIGHT);
    FoldTwo(config, y, x, m, KindOf(r), r, e, MIDNIGHT);
    EditsClash(Asked(config, x, r, e).value.0, Asked(config, y, r, e).value.0, MIDNIGHT);
  }

  lemma FirstTwo(config: Configuration, x: ActionType, y: ActionType) returns (o: seq<ActionType>)
    requires x in config && y in config && x != y
    ensures IsOrder(config, o) && |o| >= 2 && o[0] == x && o[1] == y
  {
    var rest := EnumerateKeys(config.Keys - {x, y});
    EnumeratesBoth({x, y}, [x, y], config.Keys - {x, y}, rest);
    assert {x, y} + (config.Keys - {x, y}) == config.Keys;
    o := [x, y] + rest;
  }

  lemma OrdersAgree(
    config: Configuration, r: Resource, e: EventType, m: MetaValue, kind: ObjectKind, now: Clock,
    o1: seq<ActionType>, o2: seq<ActionType>)
    requires !Overlapping(config, r, e) && IsOrder(config, o1) && IsOrder(config, o2)
    ensures Fold(config, o1, m, kind, r, e, now) == Fold(config, o2, m, kind, r, e, now)
  {
    var x, y := AddFor(e), RemoveFor(e);
    FoldActive(config, o1, m, kind, r, e, now);
    FoldActive(config, o2, m, kind, r, e, now);
    ActiveShape(config, o1, r, e);
    ActiveShape(config, o2, r, e);
    if Asked(config, x, r, e).Some? && Asked(config, y, r, e).Some? {
      BothFoldsAgree(config, r, e, m, kind, now);
    }
  }

  lemma BothFoldsAgree(config: Configuration, r: Resource, e: EventType, m: MetaValue, kind: ObjectKind, now: Clock)
    requires !Overlapping(config, r, e)
    requires Asked(config, AddFor(e), r, e).Some? && Asked(config, RemoveFor(e), r, e).Some?
    ensures Fold(config, [AddFor(e), RemoveFor(e)], m, kind, r, e, now)
         == Fold(config, [RemoveFor(e), AddFor(e)], m, kind, r, e, now)
  {
    var x, y := AddFor(e), RemoveFor(e);
    FoldTwo(config, x, y, m, kind, r, e, now);
    FoldTwo(config, y, x, m, kind, r, e, now);
    EditsCommute(m, Asked(config, x, r, e).value.0, Asked(config, y, r, e).value.0, now);
  }

  /** Hook confluence, exactly: the order never matters if and only if the two entries do not overlap. */
  lemma ConfluentIff(config: Configuration, r: Resource, e: EventType)
    ensures Confluent(config, r, e) <==> !Overlapping(config, r, e)
  {
    if Overlapping(config, r, e) {
      var o1, o2 := OverlapShows(config, r, e);
    } else {
      forall m, kind, now: Clock, o1, o2 | IsOrder(config, o1) && IsOrder(config, o2)
        ensures Fold(config, o1, m, kind, r, e, now) == Fold(config, o2, m, kind, r, e, now)
      {
        OrdersAgree(config, r, e, m, kind, now, o1, o2);
      }
    }
  }

  /** An order that starts with the two asking keys. */
  lemma FoldsTo(
    config: Configuration, order: seq<ActionType>, x: ActionType, y: ActionType, m: MetaValue, kind: ObjectKind,
    r: Resource, e: EventType, now: Clock)
    requires IsOrder(config, order) && |order| >= 2 && order[0] == x && order[1] == y
    requires {x, y} == {AddFor(e), RemoveFor(e)}
    requires Asked(config, x, r, e).Some? && Asked(config, y, r, e).Some?
    ensures Fold(config, order, m, kind, r, e, now) == Fold(config, [x, y], m, kind, r, e, now)
  {
    FoldActive(config, order, m, kind, r, e, now);
    ActiveShape(config, order, r, e);
    assert x in {AddFor(e), RemoveFor(e)} && y in {AddFor(e), RemoveFor(e)};
    assert Active(config, order, r, e)[0] == x;
  }

  /** When nothing is configured for a resource and event, running the hooks changes nothing and reports no
      error, in any order: guarding Action by ActionExists loses nothing. */
  lemma GuardLosesNothing(
    config: Configuration, order: seq<ActionType>, m: MetaValue, kind: ObjectKind, r: Resource, e: EventType,
    now: Clock)
    requires IsOrder(config, order) && !ConfiguredIn(config, config.Keys, r, e)
    ensures Fold(config, order, m, kind, r, e, now) == (m, false)
  {
    FoldActive(config, order, m, kind, r, e, now);
    assert forall a | a in config.Keys :: !Asked(config, a, r, e).Some?;
    var s := Active(config, order, r, e);
    ActiveShape(config, order, r, e);
  }

  /** Whatever hooks are configured, and whether or not they fail, an object keeps its labels. */
  lemma {:induction false} HooksKeepLabels(
    config: Configuration, order: seq<ActionType>, m: MetaValue, kind: ObjectKind, r: Resource, e: EventType,
    now: Clock)
    ensures Fold(config, order, m, kind, r, e, now).0.labels == m.labels
  {
    if order != [] {
      match Asked(config, order[0], r, e)
      case None => HooksKeepLabels(config, order[1..], m, kind, r, e, now);
      case Some((entry, op)) => HooksKeepLabels(config, order[1..], Edit(m, entry, op, now), kind, r, e, now);
    }
  }
}
