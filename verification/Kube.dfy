/** The API server: the objects the provisioner touches and what one call does to them. */
module Kube {

  /** Namespace and name. */
  type Key = (string, string)

  datatype Meta = Meta(annotations: map<string, string>, finalizers: seq<string>)

  datatype PVC = PVC(uid: string, labels: map<string, string>, meta: Meta, bound: bool)

  /** `labels` are the pod labels, which are also the Deployment's own labels and selector;
      `claimName` is the claim its volume mounts. */
  datatype Deployment = Deployment(labels: map<string, string>, claimName: string, meta: Meta)

  datatype Service = Service(selector: map<string, string>, ip: string, meta: Meta)

  datatype Cluster = Cluster(
    pvcs: map<Key, PVC>,
    deployments: map<Key, Deployment>,
    services: map<Key, Service>,
    pvs: set<string>)

  /** A call is served, fails without effect, or takes effect and still reports an error. */
  datatype Fault = Fine | Lost | Late

  /** What the configured hooks make of an object about to be created or deleted. */
  datatype Hooked = Accepted(meta: Meta) | Rejected

  /** Everything the outside world decides about one call: whether it fails, what the hooks do,
      which UID and cluster IP the server assigns, and which claims storage has bound by then. */
  datatype Weather = Weather(fault: Fault, hook: Hooked, uid: string, ip: string, binds: set<Key>)

  /** Nothing fails, and nothing in particular is assigned. */
  const CALM := Weather(Fine, Accepted(Meta(map[], [])), "", "", {})

  datatype Reply<T> = Found(obj: T) | NotFound | Failed

  function Read<T>(objects: map<Key, T>, k: Key, f: Fault): Reply<T> {
    if f != Fine then Failed else if k in objects then Found(objects[k]) else NotFound
  }

  /** The objects after a create call, and whether the caller sees it succeed. */
  function Create<T>(objects: map<Key, T>, k: Key, obj: T, f: Fault): (map<Key, T>, bool) {
    if f == Lost || k in objects then (objects, false) else (objects[k := obj], f == Fine)
  }

  /** The objects after a delete call; a missing object is not an error for any caller here. */
  function Remove<T>(objects: map<Key, T>, k: Key, f: Fault): (map<Key, T>, bool) {
    if f == Lost then (objects, false) else (objects - {k}, f == Fine)
  }

  /** Storage has bound the claims in `binds`. */
  function Settle(c: Cluster, binds: set<Key>): Cluster {
    c.(pvcs := map k | k in c.pvcs :: if k in binds then c.pvcs[k].(bound := true) else c.pvcs[k])
  }

  /** `selector` picks pods carrying `labels`. */
  ghost predicate Selects(selector: map<string, string>, labels: map<string, string>) {
    forall x | x in selector :: x in labels && labels[x] == selector[x]
  }
}
