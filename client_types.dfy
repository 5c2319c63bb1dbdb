/** The client's view of its loaded configuration and of one integration's
    identity (`IdentifyingMetadata`), as the connection manager and the
    connection watcher read and write them. */
module ClientTypes {
  import opened Common

  /** One entry of `config.connections`, keyed by the integration's friendly
      name. Optional fields are the ones a configuration may leave out. */
  datatype Entry = Entry(
    id: string,
    identifier: Option<string>,
    kind: string,
    isDisabled: Option<bool>,
    serverId: Option<string>)

  /** An identifier is "claimed" when it is truthy: present and non-empty. */
  predicate Claimed(e: Entry) {
    e.identifier.Some? && e.identifier.value != ""
  }

  /** `config.connections`, a JavaScript object: its keys in enumeration
      order, and the entry under each key. */
  datatype ConnectionTable = ConnectionTable(keys: seq<string>, entries: map<string, Entry>)

  /** No key occurs twice. */
  predicate Distinct(keys: seq<string>) {
    keys == [] || (keys[0] !in keys[1..] && Distinct(keys[1..]))
  }

  /** In a list without repetitions, no key occurs before its own position. */
  lemma {:induction false} DistinctNotBefore(keys: seq<string>, i: nat)
    requires Distinct(keys) && i < |keys|
    ensures keys[i] !in keys[..i]
  {
    if i > 0 {
      DistinctNotBefore(keys[1..], i - 1);
      assert keys[..i] == [keys[0]] + keys[1..][..i - 1];
      assert keys[i] == keys[1..][i - 1];
      assert keys[i] in keys[1..];
    }
  }

  /** What every JavaScript object satisfies: its key list enumerates each
      of its keys exactly once (distinct keys, each with an entry, and as
      many keys as entries). */
  predicate WellFormed(t: ConnectionTable) {
    && Distinct(t.keys)
    && (forall i | 0 <= i < |t.keys| :: t.keys[i] in t.entries)
    && |t.entries| == |t.keys|
  }

  /** A list without repetitions has as many elements as its set. */
  lemma {:induction false} DistinctCount(keys: seq<string>)
    requires Distinct(keys)
    ensures |set k | k in keys| == |keys|
  {
    if keys != [] {
      DistinctCount(keys[1..]);
      assert (set k | k in keys) == {keys[0]} + (set k | k in keys[1..]);
    }
  }

  lemma {:induction false} SubsetCard(a: set<string>, b: set<string>)
    requires a <= b
    ensures |a| <= |b|
    decreases |a|
  {
    if a != {} {
      var x :| x in a;
      SubsetCard(a - {x}, b - {x});
    }
  }

  /** A well-formed table enumerates every key it has. */
  lemma KeyOfWellFormed(t: ConnectionTable, k: string)
    requires WellFormed(t) && k in t.entries
    ensures k in t.keys
  {
    var listed := set k' | k' in t.keys;
    if k !in t.keys {
      assert listed <= t.entries.Keys - {k};
      DistinctCount(t.keys);
      SubsetCard(listed, t.entries.Keys - {k});
    }
  }

  type Connections = t: ConnectionTable | WellFormed(t)
    witness ConnectionTable([], map[])

  /** `config.connectionsManager.watcher`: delays of the connection watcher. */
  datatype WatcherTiming = WatcherTiming(frequency: nat, interval: nat)

  /** The loaded configuration (`clientOpts.config`). Each field is one
      top-level key; `other` stands for every top-level key this model does
      not read. `connectionsManager` is always present in a loaded
      configuration (it carries defaults). */
  datatype Config = Config(
    connections: Option<Connections>,
    haModeEnabled: Option<string>,
    connectionsManager: WatcherTiming,
    other: map<string, string>)

  /** The entry for `name`, if `config.connections` exists and has it. */
  function Lookup(c: Config, name: string): (r: Option<Entry>)
    ensures r.Some? <==> c.connections.Some? && name in c.connections.value.entries
    ensures r.Some? ==> r.value == c.connections.value.entries[name]
  {
    if c.connections.Some? && name in c.connections.value.entries
    then Some(c.connections.value.entries[name])
    else None
  }

  /** `IdentifyingMetadata`: the identity of one integration's tunnel. */
  datatype Metadata = Metadata(
    id: string,
    friendlyName: string,
    identifier: Option<string>,
    isDisabled: bool,
    supportedIntegrationType: string,
    serverId: string,
    clientId: string,
    capabilities: seq<string>)

  /** `clientOpts`: the options object shared by the manager and every
      watcher. Its `config` is replaced by each watcher check and written
      in place by the manager. */
  class ClientOpts {
    var config: Config

    constructor (c: Config)
      ensures config == c
    {
      config := c;
    }
  }

  /** The shared `websocketConnections` list. Its entries are made by the
      tunnel factory `createWebSocketConnectionPairs`, which is outside this
      model; the list records the identity of every factory call made with
      it, in call order. */
  class TunnelList {
    var requested: seq<Metadata>

    constructor ()
      ensures requested == []
    {
      requested := [];
    }

    /** `createWebSocketConnectionPairs(this, opts, identity)`. */
    method Create(identity: Metadata)
      modifies this
      ensures requested == old(requested) + [identity]
    {
      requested := requested + [identity];
    }
  }
}
