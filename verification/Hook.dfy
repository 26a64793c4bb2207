/** Hooks: configured metadata edits on the objects of a volume, run on create and delete events. */
module Hook {
  import opened Basics
  import opened Finalizers
  import opened Strings

  datatype EventType = CreateVolume | DeleteVolume

  datatype ActionOp = AddOrUpdate | Remove

  /** The keys of the configuration; a key the provisioner does not know is kept and ignored. */
  datatype ActionType = AddOnCreate | RemoveOnCreate | AddOnDelete | RemoveOnDelete | Unknown(name: string)

  datatype Resource = BackendPVC | BackendPV | NFSService | NFSPV | NFSServerDeployment

  /** The type of the object a hook is run on. */
  datatype ObjectKind = PersistentVolumeClaim | PersistentVolume | ServiceObject | DeploymentObject

  /** PVCHook, PVHook, ServiceHook and DeploymentHook have the same two fields. */
  datatype Entry = Entry(annotations: map<string, string>, finalizers: seq<string>)

  datatype HookConfig = HookConfig(
    nfsPV: Option<Entry>,
    backendPV: Option<Entry>,
    backendPVC: Option<Entry>,
    nfsService: Option<Entry>,
    nfsDeployment: Option<Entry>)

  const TEMPLATE_CURRENT_TIME := "$current-time"

  /** ActionForEventMap. */
  function ActionForEvent(a: ActionType): Option<(EventType, ActionOp)> {
    match a
    case AddOnCreate => Some((CreateVolume, AddOrUpdate))
    case RemoveOnCreate => Some((CreateVolume, Remove))
    case AddOnDelete => Some((DeleteVolume, AddOrUpdate))
    case RemoveOnDelete => Some((DeleteVolume, Remove))
    case Unknown(_) => None
  }

  function EntryFor(cfg: HookConfig, r: Resource): Option<Entry> {
    match r
    case BackendPVC => cfg.backendPVC
    case BackendPV => cfg.backendPV
    case NFSService => cfg.nfsService
    case NFSPV => cfg.nfsPV
    case NFSServerDeployment => cfg.nfsDeployment
  }

  function KindOf(r: Resource): ObjectKind {
    match r
    case BackendPVC => PersistentVolumeClaim
    case BackendPV => PersistentVolume
    case NFSService => ServiceObject
    case NFSPV => PersistentVolume
    case NFSServerDeployment => DeploymentObject
  }

  /** The time read when the annotation with a key is substituted: the clock is read for each. */
  type Clock = string -> string

  /** A template value at a given time. */
  function Substitute(v: string, now: string): string {
    if exists i | 0 <= i <= |v| :: OccursAt(v, TEMPLATE_CURRENT_TIME, i)
    then ReplaceAll(v, TEMPLATE_CURRENT_TIME, now) else v
  }

  /** The search for the template variable only saves work: the value is the replacement either way. */
  lemma SubstituteIsReplace(v: string, now: string)
    ensures Substitute(v, now) == ReplaceAll(v, TEMPLATE_CURRENT_TIME, now)
  {
    if !exists i | 0 <= i <= |v| :: OccursAt(v, TEMPLATE_CURRENT_TIME, i) {
      ReplaceNothing(v, TEMPLATE_CURRENT_TIME, now);
    }
  }

  function Substituted(annotations: map<string, string>, now: Clock): map<string, string> {
    map k | k in annotations :: Substitute(annotations[k], now(k))
  }

  method AddAnnotations(obj: ObjectMeta, annotations: map<string, string>, now: Clock)
    modifies obj`annotations
    ensures obj.annotations == old(obj.annotations) + Substituted(annotations, now)
  {
    var rest := annotations.Keys;
    ghost var all := Substituted(annotations, now);
    while rest != {}
      invariant rest <= annotations.Keys
      invariant obj.annotations == old(obj.annotations) + (all - rest)
      decreases rest
    {
      var k :| k in rest;
      AddOne(old(obj.annotations), all, rest, k);
      obj.annotations, rest := obj.annotations[k := Substitute(annotations[k], now(k))], rest - {k};
    }
    assert all - {} == all;
  }

  lemma AddOne(base: map<string, string>, all: map<string, string>, rest: set<string>, k: string)
    requires k in all && k in rest
    ensures (base + (all - rest))[k := all[k]] == base + (all - (rest - {k}))
  {
  }

  /** The metadata after one hook entry. */
  function Edit(m: MetaValue, entry: Entry, op: ActionOp, now: Clock): MetaValue {
    match op
    case AddOrUpdate =>
      m.(annotations := m.annotations + Substituted(entry.annotations, now),
         finalizers := AddAll(m.finalizers, entry.finalizers))
    case Remove =>
      m.(annotations := m.annotations - entry.annotations.Keys,
         finalizers := RemoveAll(m.finalizers, entry.finalizers))
  }

  /** pvcHookAction, and its three namesakes, told apart by the kind of object they take. */
  method HookAction(entry: Option<Entry>, op: ActionOp, obj: ObjectMeta, kind: ObjectKind, wanted: ObjectKind,
                    now: Clock)
    returns (err: bool)
    modifies obj
    ensures err <==> entry.Some? && kind != wanted
    ensures obj.Value() == if entry.None? || err then old(obj.Value()) else Edit(old(obj.Value()), entry.value, op, now)
  {
    if entry.None? { return false; }
    if kind != wanted { return true; }
    var e := entry.value;
    match op {
      case AddOrUpdate =>
        if |e.annotations| != 0 { AddAnnotations(obj, e.annotations, now); }
        if |e.finalizers| != 0 { AddFinalizers(obj, e.finalizers); }
        assert |e.annotations| == 0 ==> Substituted(e.annotations, now) == map[];
      case Remove =>
        if |e.annotations| != 0 { RemoveAnnotations(obj, e.annotations); }
        if |e.finalizers| != 0 { RemoveFinalizers(obj, e.finalizers); }
    }
    err := false;
  }

  type Configuration = map<ActionType, HookConfig>

  /** The edit, if any, that key `a` of the configuration asks for. */
  function Asked(config: Configuration, a: ActionType, r: Resource, e: EventType): Option<(Entry, ActionOp)> {
    if a in config && ActionForEvent(a).Some? && ActionForEvent(a).value.0 == e && EntryFor(config[a], r).Some?
    then Some((EntryFor(config[a], r).value, ActionForEvent(a).value.1)) else None
  }

  /** Action, visiting the configuration in the given order and stopping at the first error. */
  function Fold(config: Configuration, order: seq<ActionType>, m: MetaValue, kind: ObjectKind, r: Resource,
                e: EventType, now: Clock): (MetaValue, bool)
  {
    if order == [] then (m, false) else
    match Asked(config, order[0], r, e)
    case None => Fold(config, order[1..], m, kind, r, e, now)
    case Some((entry, op)) =>
      if kind != KindOf(r) then (m, true)
      else Fold(config, order[1..], Edit(m, entry, op, now), kind, r, e, now)
  }

  /** One of the orders in which a Go range loop may visit the keys of the configuration. */
  ghost predicate IsOrder(config: Configuration, order: seq<ActionType>) {
    Enumerates(config.Keys, order)
  }

  ghost predicate Enumerates(keys: set<ActionType>, order: seq<ActionType>) {
    && (forall a :: a in order <==> a in keys)
    && NoDuplicates(order)
  }

  lemma EnumeratesBoth(ks: set<ActionType>, s: seq<ActionType>, ls: set<ActionType>, t: seq<ActionType>)
    requires Enumerates(ks, s) && Enumerates(ls, t) && ks !! ls
    ensures Enumerates(ks + ls, s + t)
  {
    forall i, j | 0 <= i < j < |s + t| ensures (s + t)[i] != (s + t)[j] {
      if i < |s| <= j {
        assert s[i] in s && t[j - |s|] in t;
      }
    }
  }

  ghost predicate ConfiguredIn(config: Configuration, keys: set<ActionType>, r: Resource, e: EventType) {
    exists a :: a in keys && Asked(config, a, r, e).Some?
  }

  lemma ConfiguredMore(config: Configuration, keys: set<ActionType>, a: ActionType)
    ensures forall r, e :: ConfiguredIn(config, keys + {a}, r, e) <==>
      ConfiguredIn(config, keys, r, e) || Asked(config, a, r, e).Some?
  {
    forall r, e | ConfiguredIn(config, keys, r, e) || Asked(config, a, r, e).Some?
      ensures ConfiguredIn(config, keys + {a}, r, e)
    {
      if Asked(config, a, r, e).Some? {
        assert a in keys + {a};
      } else {
        var b :| b in keys && Asked(config, b, r, e).Some?;
        assert b in keys + {a};
      }
    }
  }

  /** The resources the hook configuration of one key has entries for, added to those found so far. */
  method WithEntries(cfg: HookConfig, before: set<Resource>) returns (found: set<Resource>)
    ensures forall r :: r in found <==> r in before || EntryFor(cfg, r).Some?
  {
    found := before;
    if cfg.backendPVC.Some? { found := found + {BackendPVC}; }
    if cfg.backendPV.Some? { found := found + {BackendPV}; }
    if cfg.nfsService.Some? { found := found + {NFSService}; }
    if cfg.nfsPV.Some? { found := found + {NFSPV}; }
    if cfg.nfsDeployment.Some? { found := found + {NFSServerDeployment}; }
  }

  class HookEngine {
    var config: Configuration
    var availableActions: map<EventType, set<Resource>>

    constructor (config: Configuration)
      ensures this.config == config
    {
      this.config := config;
    }

    /** Some known action of the configuration has an entry for this resource on this event. */
    ghost predicate Configured(r: Resource, e: EventType)
      reads this
    {
      ConfiguredIn(config, config.Keys, r, e)
    }

    /** Rebuilds the index: an event and resource are in it exactly when a scan of the configuration finds
        them. */
    method UpdateAvailableActions()
      modifies this`availableActions
      ensures forall r, e :: ActionExists(r, e) <==> Configured(r, e)
    {
      availableActions := map[CreateVolume := {}, DeleteVolume := {}];
      var rest := config.Keys;
      while rest != {}
        invariant rest <= config.Keys
        invariant CreateVolume in availableActions && DeleteVolume in availableActions
        invariant forall r, e :: ActionExists(r, e) <==> ConfiguredIn(config, config.Keys - rest, r, e)
        decreases rest
      {
        var a :| a in rest;
        ConfiguredMore(config, config.Keys - rest, a);
        assert config.Keys - (rest - {a}) == config.Keys - rest + {a};
        rest := rest - {a};
        var ev := ActionForEvent(a);
        if ev.Some? {
          var e := ev.value.0;
          var found := WithEntries(config[a], availableActions[e]);
          availableActions := availableActions[e := found];
        }
      }
      assert config.Keys - rest == config.Keys;
    }

    predicate ActionExists(r: Resource, e: EventType)
      reads this
    {
      e in availableActions && r in availableActions[e]
    }

    /** The hook of one key of the configuration. */
    method RunKey(a: ActionType, obj: ObjectMeta, kind: ObjectKind, r: Resource, e: EventType, now: Clock)
      returns (err: bool)
      requires a in config
      modifies obj
      ensures (obj.Value(), err) == Fold(config, [a], old(obj.Value()), kind, r, e, now)
    {
      assert [a][1..] == [];
      err := false;
      var ev := ActionForEvent(a);
      if ev.Some? && ev.value.0 == e {
        err := HookAction(EntryFor(config[a], r), ev.value.1, obj, kind, KindOf(r), now);
      }
    }

    /** Runs the hooks in an order of the runtime's choosing, which `order` reports. */
    method Action(obj: ObjectMeta, kind: ObjectKind, r: Resource, e: EventType, now: Clock)
      returns (err: bool, ghost order: seq<ActionType>)
      modifies obj
      ensures IsOrder(config, order)
      ensures (obj.Value(), err) == Fold(config, order, old(obj.Value()), kind, r, e, now)
    {
      err, order := false, [];
      var rest := config.Keys;
      while rest != {} && !err
        invariant rest <= config.Keys
        invariant Enumerates(config.Keys - rest, order)
        invariant Fold(config, order, old(obj.Value()), kind, r, e, now) == (obj.Value(), err)
        decreases rest
      {
        var a :| a in rest;
        FoldMore(config, order, [a], old(obj.Value()), kind, r, e, now);
        err := RunKey(a, obj, kind, r, e, now);
        order, rest := order + [a], rest - {a};
      }
      ghost var tail := EnumerateKeys(rest);
      FoldMore(config, order, tail, old(obj.Value()), kind, r, e, now);
      EnumeratesBoth(config.Keys - rest, order, rest, tail);
      assert config.Keys - rest + rest == config.Keys;
      order := order + tail;
    }
  }

  /** Some order of a set of keys. */
  ghost function EnumerateKeys(keys: set<ActionType>): (s: seq<ActionType>)
    ensures Enumerates(keys, s)
  {
    if keys == {} then [] else
    var a :| a in keys;
    [a] + EnumerateKeys(keys - {a})
  }

  /** Visiting more keys after some. */
  lemma {:induction false} FoldMore(
    config: Configuration, first: seq<ActionType>, more: seq<ActionType>, m: MetaValue, kind: ObjectKind,
    r: Resource, e: EventType, now: Clock)
    ensures var (m', err) := Fold(config, first, m, kind, r, e, now);
      Fold(config, first + more, m, kind, r, e, now)
        == if err then (m', true) else Fold(config, more, m', kind, r, e, now)
  {
    if first == [] {
      assert first + more == more;
    } else {
      assert (first + more)[1..] == first[1..] + more;
      match Asked(config, first[0], r, e)
      case None => FoldMore(config, first[1..], more, m, kind, r, e, now);
      case Some((entry, op)) =>
        FoldMore(config, first[1..], more, Edit(m, entry, op, now), kind, r, e, now);
    }
  }
}
