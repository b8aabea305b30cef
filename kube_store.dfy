/**
 * The Kubernetes API the manager calls, reduced to a namespaced object store:
 * a map from (namespace, kind, name) to manifest, a log of every call issued,
 * and a fault oracle that answers each call. A call the oracle fails changes nothing.
 */
module KubeStore {
  import opened Templates

  datatype Kind = Deployment | Service

  datatype Key = Key(namespace: string, kind: Kind, name: string)

  type Store = map<Key, Manifest>

  /** create_namespaced_* (the body names the object) and delete_namespaced_*. */
  datatype Call = CreateCall(key: Key, body: Manifest) | DeleteCall(key: Key)

  /** A call returns, or raises ApiException with an HTTP status. */
  datatype Reply = Done | ApiError(status: int)

  const CONFLICT := 409
  const NOT_FOUND := 404

  /** The platform's answer to the n-th call, given the store when it is made. */
  type Oracle = (nat, Call, Store) -> Reply

  datatype World = World(store: Store, log: seq<Call>)

  function Effect(store: Store, call: Call): Store {
    match call
    case CreateCall(k, body) => store[k := body]
    case DeleteCall(k) => store - {k}
  }

  /** One call: logged whatever happens, applied only when it succeeds. */
  function Issue(w: World, oracle: Oracle, call: Call): (World, Reply) {
    var reply := oracle(|w.log|, call, w.store);
    (World(if reply.Done? then Effect(w.store, call) else w.store, w.log + [call]), reply)
  }

  /** A platform without injected faults: a create conflicts exactly when the name is taken. */
  function HonestReply(n: nat, call: Call, store: Store): Reply {
    match call
    case CreateCall(k, _) => if k in store then ApiError(CONFLICT) else Done
    case DeleteCall(k) => if k in store then Done else ApiError(NOT_FOUND)
  }

  /** Both stores hold the same thing (or nothing) under k. */
  predicate Agrees(s1: Store, s2: Store, k: Key) {
    (k in s1 <==> k in s2) && (k in s1 ==> s1[k] == s2[k])
  }

  class Platform {
    var store: Store
    var log: seq<Call>
    const oracle: Oracle

    constructor (initial: Store, oracle: Oracle)
      ensures store == initial && log == [] && this.oracle == oracle
    {
      store := initial;
      log := [];
      this.oracle := oracle;
    }

    function State(): World
      reads this
    {
      World(store, log)
    }

    method Submit(call: Call) returns (reply: Reply)
      modifies this
      ensures (State(), reply) == Issue(old(State()), oracle, call)
    {
      reply := oracle(|log|, call, store);
      if reply.Done? {
        store := Effect(store, call);
      }
      log := log + [call];
    }
  }
}
