/** What a configured hook does to an object, said in terms of the configuration's own fields. */
module HookEffects {
  import opened Basics
  import opened Finalizers
  import opened Hook
  import opened HookTheorems
  import opened Strings

  /** m' is m with the entry's annotations, their template replaced, and its finalizers added. */
  ghost predicate AddedTo(m: MetaValue, m': MetaValue, entry: Entry, now: Clock) {
    && m'.labels == m.labels
    && m'.annotations.Keys == m.annotations.Keys + entry.annotations.Keys
    && (forall k | k in entry.annotations ::
          m'.annotations[k] == ReplaceAll(entry.annotations[k], "$current-time", now(k)))
    && (forall k | k in m.annotations && k !in entry.annotations :: m'.annotations[k] == m.annotations[k])
    && m.finalizers <= m'.finalizers
    && (forall f :: f in m'.finalizers <==> f in m.finalizers || f in entry.finalizers)
    && NoDuplicates(m'.finalizers[|m.finalizers|..])
    && (forall f | f in m'.finalizers[|m.finalizers|..] :: f !in m.finalizers)
  }

  /** m' is m without the entry's annotation keys, and without one occurrence of each of its finalizers. */
  ghost predicate RemovedFrom(m: MetaValue, m': MetaValue, entry: Entry) {
    && m'.labels == m.labels
    && m'.annotations.Keys == m.annotations.Keys - entry.annotations.Keys
    && (forall k | k in m'.annotations :: m'.annotations[k] == m.annotations[k])
    && multiset(m'.finalizers) == multiset(m.finalizers) - multiset(entry.finalizers)
  }

  /** What running the hooks comes to, with an adding and a removing entry for the event or without, on an object
      of the right kind or not. */
  ghost predicate Takes(
    add: Option<Entry>, remove: Option<Entry>, right: bool, m: MetaValue, m': MetaValue, err: bool, now: Clock)
  {
    if add.None? && remove.None? then !err && m' == m
    else if !right then err && m' == m
    else if remove.None? then !err && AddedTo(m, m', add.value, now)
    else if add.None? then !err && RemovedFrom(m, m', remove.value)
    else !err && BothDone(m, m', add.value, remove.value, now)
  }

  /** Both edits, one after the other. */
  ghost predicate BothDone(m: MetaValue, m': MetaValue, add: Entry, remove: Entry, now: Clock) {
    || (exists mid :: AddedTo(m, mid, add, now) && RemovedFrom(mid, m', remove))
    || (exists mid :: RemovedFrom(m, mid, remove) && AddedTo(mid, m', add, now))
  }

  /** What is configured under a key. */
  function Under(config: Configuration, a: ActionType): HookConfig {
    if a in config then config[a] else HookConfig(None, None, None, None, None)
  }

  /** On each event only two keys of the configuration count, and in each only the field of the resource at hand. */
  ghost predicate Effects(
    config: Configuration, r: Resource, e: EventType, kind: ObjectKind, m: MetaValue, m': MetaValue, err: bool,
    now: Clock)
  {
    var add := Under(config, if e == CreateVolume then AddOnCreate else AddOnDelete);
    var remove := Under(config, if e == CreateVolume then RemoveOnCreate else RemoveOnDelete);
    match r
    case BackendPVC =>
      Takes(add.backendPVC, remove.backendPVC, kind == PersistentVolumeClaim, m, m', err, now)
    case BackendPV => Takes(add.backendPV, remove.backendPV, kind == PersistentVolume, m, m', err, now)
    case NFSService => Takes(add.nfsService, remove.nfsService, kind == ServiceObject, m, m', err, now)
    case NFSPV => Takes(add.nfsPV, remove.nfsPV, kind == PersistentVolume, m, m', err, now)
    case NFSServerDeployment =>
      Takes(add.nfsDeployment, remove.nfsDeployment, kind == DeploymentObject, m, m', err, now)
  }

  lemma EditAdds(m: MetaValue, entry: Entry, now: Clock)
    ensures AddedTo(m, Edit(m, entry, AddOrUpdate, now), entry, now)
  {
    AddAppends(m.finalizers, entry.finalizers);
    var m' := Edit(m, entry, AddOrUpdate, now);
    assert m'.finalizers[|m.finalizers|..] == Missing(m.finalizers, entry.finalizers);
    forall k | k in entry.annotations
      ensures m'.annotations[k] == ReplaceAll(entry.annotations[k], "$current-time", now(k))
    {
      SubstituteIsReplace(entry.annotations[k], now(k));
    }
  }

  lemma EditRemoves(m: MetaValue, entry: Entry, now: Clock)
    ensures RemovedFrom(m, Edit(m, entry, Remove, now), entry)
  {
    RemoveCounts(m.finalizers, entry.finalizers);
  }

  /** The entry the configuration holds for a resource and event under one of the two keys. */
  function EntryOf(asked: Option<(Entry, ActionOp)>): Option<Entry> {
    match asked case None => None case Some((entry, _)) => Some(entry)
  }

  lemma TakesAsAsked(
    config: Configuration, order: seq<ActionType>, m: MetaValue, kind: ObjectKind, r: Resource, e: EventType,
    now: Clock)
    requires IsOrder(config, order)
    ensures var (m', err) := Fold(config, order, m, kind, r, e, now);
      Takes(EntryOf(Asked(config, AddFor(e), r, e)), EntryOf(Asked(config, RemoveFor(e), r, e)), kind == KindOf(r),
        m, m', err, now)
  {
    var x, y, s := AddFor(e), RemoveFor(e), Active(config, order, r, e);
    FoldActive(config, order, m, kind, r, e, now);
    ActiveShape(config, order, r, e);
    var result := Fold(config, s, m, kind, r, e, now);
    if Asked(config, x, r, e).Some? {
      if Asked(config, y, r, e).Some? {
        BothTake(config, s, m, kind, r, e, now);
      } else {
        AddTakes(config, m, kind, r, e, now);
      }
    } else if Asked(config, y, r, e).Some? {
      RemoveTakes(config, m, kind, r, e, now);
    } else {
      assert s == [] && result == (m, false);
    }
  }

  lemma FoldOne(
    config: Configuration, a: ActionType, m: MetaValue, kind: ObjectKind, r: Resource, e: EventType, now: Clock)
    requires Asked(config, a, r, e).Some?
    ensures var (entry, op) := Asked(config, a, r, e).value;
      Fold(config, [a], m, kind, r, e, now)
        == if kind != KindOf(r) then (m, true) else (Edit(m, entry, op, now), false)
  {
    assert [a][1..] == [];
  }

  lemma AddTakes(config: Configuration, m: MetaValue, kind: ObjectKind, r: Resource, e: EventType, now: Clock)
    requires Asked(config, AddFor(e), r, e).Some?
    ensures var (m', err) := Fold(config, [AddFor(e)], m, kind, r, e, now);
      Takes(EntryOf(Asked(config, AddFor(e), r, e)), None, kind == KindOf(r), m, m', err, now)
  {
    FoldOne(config, AddFor(e), m, kind, r, e, now);
    EditAdds(m, Asked(config, AddFor(e), r, e).value.0, now);
  }

  lemma RemoveTakes(config: Configuration, m: MetaValue, kind: ObjectKind, r: Resource, e: EventType, now: Clock)
    requires Asked(config, RemoveFor(e), r, e).Some?
    ensures var (m', err) := Fold(config, [RemoveFor(e)], m, kind, r, e, now);
      Takes(None, EntryOf(Asked(config, RemoveFor(e), r, e)), kind == KindOf(r), m, m', err, now)
  {
    FoldOne(config, RemoveFor(e), m, kind, r, e, now);
    EditRemoves(m, Asked(config, RemoveFor(e), r, e).value.0, now);
  }

  lemma BothTake(
    config: Configuration, s: seq<ActionType>, m: MetaValue, kind: ObjectKind, r: Resource, e: EventType, now: Clock)
    requires s == [AddFor(e), RemoveFor(e)] || s == [RemoveFor(e), AddFor(e)]
    requires Asked(config, AddFor(e), r, e).Some? && Asked(config, RemoveFor(e), r, e).Some?
    ensures var (m', err) := Fold(config, s, m, kind, r, e, now);
      Takes(EntryOf(Asked(config, AddFor(e), r, e)), EntryOf(Asked(config, RemoveFor(e), r, e)), kind == KindOf(r),
        m, m', err, now)
  {
    var a, d := Asked(config, AddFor(e), r, e).value.0, Asked(config, RemoveFor(e), r, e).value.0;
    var result := Fold(config, s, m, kind, r, e, now);
    BothFold(config, s, m, kind, r, e, now);
    EditsDone(m, a, d, now);
    if kind == KindOf(r) {
      assert BothDone(m, result.0, a, d, now);
    }
  }

  lemma BothFold(
    config: Configuration, s: seq<ActionType>, m: MetaValue, kind: ObjectKind, r: Resource, e: EventType, now: Clock)
    requires s == [AddFor(e), RemoveFor(e)] || s == [RemoveFor(e), AddFor(e)]
    requires Asked(config, AddFor(e), r, e).Some? && Asked(config, RemoveFor(e), r, e).Some?
    ensures var a, d := Asked(config, AddFor(e), r, e).value.0, Asked(config, RemoveFor(e), r, e).value.0;
      var result := Fold(config, s, m, kind, r, e, now);
      if kind != KindOf(r) then result == (m, true)
      else (result == (Edit(Edit(m, a, AddOrUpdate, now), d, Remove, now), false)
            || result == (Edit(Edit(m, d, Remove, now), a, AddOrUpdate, now), false))
  {
    FoldTwo(config, AddFor(e), RemoveFor(e), m, kind, r, e, now);
    FoldTwo(config, RemoveFor(e), AddFor(e), m, kind, r, e, now);
  }

  lemma EditsDone(m: MetaValue, a: Entry, d: Entry, now: Clock)
    ensures BothDone(m, Edit(Edit(m, a, AddOrUpdate, now), d, Remove, now), a, d, now)
    ensures BothDone(m, Edit(Edit(m, d, Remove, now), a, AddOrUpdate, now), a, d, now)
  {
    EditAdds(m, a, now);
    EditRemoves(Edit(m, a, AddOrUpdate, now), d, now);
    EditRemoves(m, d, now);
    EditAdds(Edit(m, d, Remove, now), a, now);
  }

  /** Running the hooks, in whatever order: an adding entry for the resource and event adds its annotations and
      finalizers, a removing one removes them, an object of the wrong kind is an error if there is an entry, and
      entries for other resources or events change nothing. */
  lemma HooksTakeEffect(
    config: Configuration, order: seq<ActionType>, m: MetaValue, kind: ObjectKind, r: Resource, e: EventType,
    now: Clock)
    requires IsOrder(config, order)
    ensures var (m', err) := Fold(config, order, m, kind, r, e, now);
      Effects(config, r, e, kind, m, m', err, now)
  {
    TakesAsAsked(config, order, m, kind, r, e, now);
    FieldsAsked(config, r, e);
  }

  lemma FieldsAsked(config: Configuration, r: Resource, e: EventType)
    ensures EntryOf(Asked(config, AddFor(e), r, e))
         == EntryFor(Under(config, if e == CreateVolume then AddOnCreate else AddOnDelete), r)
    ensures EntryOf(Asked(config, RemoveFor(e), r, e))
         == EntryFor(Under(config, if e == CreateVolume then RemoveOnCreate else RemoveOnDelete), r)
  {
    match r
    case _ => match e case _ =>
  }

  /** The template variable is replaced where it stands, and only there. */
  lemma TemplateReplaced(a: string, b: string, now: string)
    ensures Substitute(a + "$current-time" + b, now) == Substitute(a, now) + now + Substitute(b, now)
    ensures (forall i :: !OccursAt(a, "$current-time", i)) ==> Substitute(a, now) == a
  {
    var v := a + "$current-time" + b;
    SubstituteIsReplace(a, now);
    SubstituteIsReplace(b, now);
    SubstituteIsReplace(v, now);
    ReplaceAround(a, "$current-time", b, now);
    if forall i :: !OccursAt(a, "$current-time", i) { ReplaceNothing(a, "$current-time", now); }
  }
}
