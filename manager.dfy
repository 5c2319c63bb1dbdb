/** One pass of the connection manager (`manageWebsocketConnections`): for
    every configured integration, in key order, build its identity from the
    template and either skip it (disabled), register a watcher (unclaimed)
    or create its tunnel now (claimed), resolving the HA shard first when HA
    mode is on.

    The collaborators are parameters: the bootstrap is the configuration
    its last reload left, or none when it failed before reloading; the
    integration-type translation and the dispatcher's shard query are
    functions; a tunnel creation is recorded as a `Created` outcome. */
module ConnectionManager {
  import opened Common
  import opened ClientTypes
  import opened ConnectionWatcher

  /** What the dispatcher was asked, if anything, before a tunnel creation. */
  datatype ShardQuery = NotAsked | Asked(answer: Option<string>)

  /** What one loop iteration did with its integration. `Created` records
      the call `createWebSocketConnectionPairs(tunnels, opts, identity)`. */
  datatype Outcome =
    | Skipped(identity: Metadata)
    | Watching(identity: Metadata)
    | Created(identity: Metadata, shard: ShardQuery)

  /** The per-integration copy of the template identity, filled in from the
      integration's config entry with its defaults. */
  function IdentityFor(template: Metadata, key: string, e: Entry, translate: string -> string): (m: Metadata)
    ensures m.friendlyName == key && m.id == e.id && m.identifier == e.identifier
    // `isDisabled ?? false`
    ensures m.isDisabled <==> e.isDisabled == Some(true)
    // `serverId ?? ''`
    ensures e.serverId.None? ==> m.serverId == ""
    ensures e.serverId.Some? ==> m.serverId == e.serverId.value
    ensures m.supportedIntegrationType == translate(e.kind)
    // what the loop does not set is the template's
    ensures m.clientId == template.clientId && m.capabilities == template.capabilities
  {
    template.(
      friendlyName := key,
      id := e.id,
      identifier := e.identifier,
      isDisabled := e.isDisabled.OrElse(false),
      supportedIntegrationType := translate(e.kind),
      serverId := e.serverId.OrElse(""))
  }

  /** The decision for one integration: exactly one of skip, watch, create. */
  function Decide(
    template: Metadata, key: string, e: Entry, haMode: Option<string>,
    translate: string -> string, dispatcher: (string, string) -> Option<string>): (o: Outcome)
    ensures o.identity == IdentityFor(template, key, e, translate)
    ensures o.Skipped? <==> e.isDisabled == Some(true)
    ensures o.Watching? <==> e.isDisabled != Some(true) && !Claimed(e)
    ensures o.Created? <==> e.isDisabled != Some(true) && Claimed(e)
    // the dispatcher is consulted only in HA mode, and only before a creation
    ensures o.Created? ==> (o.shard.Asked? <==> haMode == Some("true"))
    ensures o.Created? && o.shard.Asked? ==>
              o.shard.answer == dispatcher(e.identifier.value, template.clientId)
  {
    var identity := IdentityFor(template, key, e, translate);
    if identity.isDisabled then Skipped(identity)
    else if !Claimed(e) then Watching(identity)
    else if haMode == Some("true") then Created(identity, Asked(dispatcher(e.identifier.value, template.clientId)))
    else Created(identity, NotAsked)
  }

  /** The outcomes of a pass over `keys`, one per key, in order. */
  function Outcomes(
    template: Metadata, keys: seq<string>, entries: map<string, Entry>, haMode: Option<string>,
    translate: string -> string, dispatcher: (string, string) -> Option<string>): (r: seq<Outcome>)
    requires forall j | 0 <= j < |keys| :: keys[j] in entries
    ensures |r| == |keys|
    ensures forall i | 0 <= i < |keys| ::
              r[i] == Decide(template, keys[i], entries[keys[i]], haMode, translate, dispatcher)
    decreases |keys|
  {
    if keys == [] then []
    else [Decide(template, keys[0], entries[keys[0]], haMode, translate, dispatcher)]
         + Outcomes(template, keys[1..], entries, haMode, translate, dispatcher)
  }

  /** The outcomes of a pass over a whole configuration: none when it has
      no `connections`. */
  function PassOutcomes(
    template: Metadata, c: Config,
    translate: string -> string, dispatcher: (string, string) -> Option<string>): (r: seq<Outcome>)
    ensures c.connections.None? ==> r == []
    ensures c.connections.Some? ==> |r| == |c.connections.value.keys|
    // each key is processed once, in key order, under its own name
    ensures c.connections.Some? ==>
              forall i | 0 <= i < |r| :: r[i].identity.friendlyName == c.connections.value.keys[i]
  {
    if c.connections.None? then []
    else
      var t := c.connections.value;
      Outcomes(template, t.keys, t.entries, c.haModeEnabled, translate, dispatcher)
  }

  /** A config entry after its iteration: the dispatcher's answer is
      written back only when there was one. */
  function PersistShard(e: Entry, o: Outcome): (r: Entry)
    ensures r == e.(serverId := r.serverId)
    ensures r.serverId != e.serverId ==> o.Created? && o.shard.Asked? && o.shard.answer == r.serverId
    ensures o.Created? && o.shard.Asked? && o.shard.answer.Some? ==> r.serverId == o.shard.answer
  {
    if o.Created? && o.shard.Asked? && o.shard.answer.Some? then e.(serverId := o.shard.answer) else e
  }

  /** The connection table once the keys in `done` have been processed. */
  function PersistedTable(
    t: Connections, done: seq<string>, template: Metadata, haMode: Option<string>,
    translate: string -> string, dispatcher: (string, string) -> Option<string>): (r: Connections)
    ensures r.keys == t.keys && r.entries.Keys == t.entries.Keys
    ensures forall k | k in t.entries && k !in done :: r.entries[k] == t.entries[k]
  {
    var entries := map k | k in t.entries ::
      if k in done
      then PersistShard(t.entries[k], Decide(template, k, t.entries[k], haMode, translate, dispatcher))
      else t.entries[k];
    assert entries.Keys == t.entries.Keys;
    ConnectionTable(t.keys, entries)
  }

  /** The configuration once the keys in `done` have been processed. */
  function PartialConfig(
    template: Metadata, c: Config, done: seq<string>,
    translate: string -> string, dispatcher: (string, string) -> Option<string>): Config
  {
    if c.connections.None? then c
    else c.(connections := Some(PersistedTable(c.connections.value, done, template, c.haModeEnabled, translate, dispatcher)))
  }

  /** The configuration after a whole pass. */
  function PassConfig(
    template: Metadata, c: Config,
    translate: string -> string, dispatcher: (string, string) -> Option<string>): Config
  {
    PartialConfig(template, c, if c.connections.Some? then c.connections.value.keys else [], translate, dispatcher)
  }

  /** A pass changes the configuration only in the `serverId` fields of
      claimed, enabled entries, and only to an answer of the dispatcher;
      every answer it gets is written back. */
  lemma PassConfigWritesOnlyShards(
    template: Metadata, c: Config,
    translate: string -> string, dispatcher: (string, string) -> Option<string>)
    ensures var r := PassConfig(template, c, translate, dispatcher);
            && r == c.(connections := r.connections)
            && (c.connections.None? ==> r == c)
            && (c.connections.Some? ==>
                  && r.connections.Some?
                  && r.connections.value.keys == c.connections.value.keys
                  && r.connections.value.entries.Keys == c.connections.value.entries.Keys)
    ensures c.connections.Some? ==>
              var r := PassConfig(template, c, translate, dispatcher);
              forall k | k in c.connections.value.entries ::
                var e := c.connections.value.entries[k];
                var o := Decide(template, k, e, c.haModeEnabled, translate, dispatcher);
                && r.connections.value.entries[k] == e.(serverId := r.connections.value.entries[k].serverId)
                && (r.connections.value.entries[k].serverId != e.serverId ==>
                      o.Created? && o.shard.Asked? && o.shard.answer == r.connections.value.entries[k].serverId)
                && (o.Created? && o.shard.Asked? && o.shard.answer.Some? ==>
                      r.connections.value.entries[k].serverId == o.shard.answer)
  {
    if c.connections.Some? {
      var t := c.connections.value;
      forall k | k in t.entries ensures k in t.keys {
        KeyOfWellFormed(t, k);
      }
    }
  }

  function CountCreated(os: seq<Outcome>): nat {
    if os == [] then 0 else (if os[0].Created? then 1 else 0) + CountCreated(os[1..])
  }

  /** The identities handed to the tunnel factory, in order. */
  function CreatedIdentities(os: seq<Outcome>): (r: seq<Metadata>)
    ensures |r| == CountCreated(os)
  {
    if os == [] then []
    else (if os[0].Created? then [os[0].identity] else []) + CreatedIdentities(os[1..])
  }

  function WatchedIdentities(os: seq<Outcome>): (r: seq<Metadata>)
    ensures |r| <= |os|
  {
    if os == [] then []
    else (if os[0].Watching? then [os[0].identity] else []) + WatchedIdentities(os[1..])
  }

  /** The number of integrations whose enabled entry is claimed. */
  function CountClaimedEnabled(keys: seq<string>, entries: map<string, Entry>): nat
    requires forall j | 0 <= j < |keys| :: keys[j] in entries
  {
    if keys == [] then 0
    else (if entries[keys[0]].isDisabled != Some(true) && Claimed(entries[keys[0]]) then 1 else 0)
         + CountClaimedEnabled(keys[1..], entries)
  }

  /** One tunnel creation per enabled, claimed integration: no more, no fewer. */
  lemma {:induction false} CreatedCountIsClaimedEnabledCount(
    template: Metadata, keys: seq<string>, entries: map<string, Entry>, haMode: Option<string>,
    translate: string -> string, dispatcher: (string, string) -> Option<string>)
    requires forall j | 0 <= j < |keys| :: keys[j] in entries
    ensures CountCreated(Outcomes(template, keys, entries, haMode, translate, dispatcher))
            == CountClaimedEnabled(keys, entries)
    decreases |keys|
  {
    if keys != [] {
      var os := Outcomes(template, keys, entries, haMode, translate, dispatcher);
      assert os[1..] == Outcomes(template, keys[1..], entries, haMode, translate, dispatcher);
      CreatedCountIsClaimedEnabledCount(template, keys[1..], entries, haMode, translate, dispatcher);
    }
  }

  /** The watched identities are exactly the enabled, unclaimed integrations'
      identities. */
  lemma {:induction false} WatchedAreUnclaimedEnabled(
    template: Metadata, keys: seq<string>, entries: map<string, Entry>, haMode: Option<string>,
    translate: string -> string, dispatcher: (string, string) -> Option<string>)
    requires forall j | 0 <= j < |keys| :: keys[j] in entries
    ensures var w := WatchedIdentities(Outcomes(template, keys, entries, haMode, translate, dispatcher));
            forall m | m in w ::
              m.friendlyName in keys && !m.isDisabled
              && m == IdentityFor(template, m.friendlyName, entries[m.friendlyName], translate)
              && !Claimed(entries[m.friendlyName])
    ensures forall i | 0 <= i < |keys| && entries[keys[i]].isDisabled != Some(true) && !Claimed(entries[keys[i]]) ::
              IdentityFor(template, keys[i], entries[keys[i]], translate)
                in WatchedIdentities(Outcomes(template, keys, entries, haMode, translate, dispatcher))
    decreases |keys|
  {
    if keys != [] {
      var os := Outcomes(template, keys, entries, haMode, translate, dispatcher);
      assert os[1..] == Outcomes(template, keys[1..], entries, haMode, translate, dispatcher);
      WatchedAreUnclaimedEnabled(template, keys[1..], entries, haMode, translate, dispatcher);
    }
  }

  /** Processing no key changes nothing. */
  lemma PersistedTableNone(
    t: Connections, template: Metadata, haMode: Option<string>,
    translate: string -> string, dispatcher: (string, string) -> Option<string>)
    ensures PersistedTable(t, [], template, haMode, translate, dispatcher) == t
  {
    assert PersistedTable(t, [], template, haMode, translate, dispatcher).entries == t.entries;
  }

  /** Processing one more key writes that key's entry and no other. */
  lemma PersistedTableSnoc(
    t: Connections, done: seq<string>, key: string, template: Metadata, haMode: Option<string>,
    translate: string -> string, dispatcher: (string, string) -> Option<string>)
    requires key in t.entries && key !in done
    ensures var before := PersistedTable(t, done, template, haMode, translate, dispatcher);
            var e := t.entries[key];
            PersistedTable(t, done + [key], template, haMode, translate, dispatcher)
            == ConnectionTable(t.keys, before.entries[key := PersistShard(e, Decide(template, key, e, haMode, translate, dispatcher))])
  {
    var before := PersistedTable(t, done, template, haMode, translate, dispatcher).entries;
    var after := PersistedTable(t, done + [key], template, haMode, translate, dispatcher).entries;
    var e := t.entries[key];
    var want := before[key := PersistShard(e, Decide(template, key, e, haMode, translate, dispatcher))];
    assert after.Keys == want.Keys;
    forall k | k in after
      ensures after[k] == want[k]
    {
      assert k in done + [key] <==> k in done || k == key;
    }
  }

  /** One iteration of the loop, for the integration `key`, whose entry the
      pass has not written yet. A watcher it registers is appended to
      `watchers`, which watch the identities `ids`. */
  method ProcessIntegration(
    opts: ClientOpts, tunnels: TunnelList, template: Metadata, key: string,
    watchers: seq<Watcher>, ghost ids: seq<Metadata>,
    translate: string -> string, dispatcher: (string, string) -> Option<string>)
    returns (outcome: Outcome, watchers': seq<Watcher>)
    requires opts.config.connections.Some? && key in opts.config.connections.value.entries
    requires Registered(watchers, ids, tunnels, opts, opts.config.connectionsManager.frequency)
    modifies opts, tunnels
    ensures var c := old(opts.config);
            var e := c.connections.value.entries[key];
            && outcome == Decide(template, key, e, c.haModeEnabled, translate, dispatcher)
            && opts.config == c.(connections := Some(ConnectionTable(
                 c.connections.value.keys, c.connections.value.entries[key := PersistShard(e, outcome)])))
    // a watcher is registered exactly for a watched integration
    ensures !outcome.Watching? ==> watchers' == watchers
    ensures outcome.Watching? ==> |watchers'| == |watchers| + 1 && watchers' == watchers + [watchers'[|watchers|]]
    ensures Registered(watchers', ids + (if outcome.Watching? then [outcome.identity] else []),
                       tunnels, opts, opts.config.connectionsManager.frequency)
    ensures forall w | w in watchers' && w !in watchers :: fresh(w)
    // the factory is called with the shared list exactly for a creation
    ensures tunnels.requested == old(tunnels.requested) + CreatedIdentities([outcome])
  {
    var table := opts.config.connections.value;
    var entry := table.entries[key];
    var identity := IdentityFor(template, key, entry, translate);
    watchers' := watchers;
    if identity.isDisabled {
      // logged: the connection is disabled
      outcome := Skipped(identity);
    } else if !Claimed(entry) {
      // logged: not in use yet; watch it
      var w := new Watcher(opts, tunnels, identity);
      RegisteredSnoc(watchers, ids, w, tunnels, opts, opts.config.connectionsManager.frequency);
      watchers' := watchers + [w];
      outcome := Watching(identity);
    } else {
      var shard := NotAsked;
      if opts.config.haModeEnabled == Some("true") {
        var serverId := dispatcher(entry.identifier.value, identity.clientId);
        shard := Asked(serverId);
        if serverId.Some? {
          opts.config := opts.config.(connections := Some(
            ConnectionTable(table.keys, table.entries[key := entry.(serverId := serverId)])));
        }
      }
      tunnels.Create(identity);
      outcome := Created(identity, shard);
      assert ids + [] == ids;
    }
    if !(outcome.Created? && outcome.shard.Asked? && outcome.shard.answer.Some?) {
      assert table.entries[key := entry] == table.entries;
    }
  }

  /** The watchers registered so far: the `j`-th watches the `j`-th watched
      identity, with the shared list and options, and has not fired yet. */
  ghost predicate Registered(watchers: seq<Watcher>, ids: seq<Metadata>, tunnels: TunnelList, opts: ClientOpts, frequency: nat)
    reads watchers
  {
    && |watchers| == |ids|
    && forall j | 0 <= j < |watchers| ::
         && watchers[j].identity == ids[j] && watchers[j].tunnels == tunnels && watchers[j].opts == opts
         && watchers[j].callbacks == [] && watchers[j].pending == Some(frequency)
  }

  lemma RegisteredSnoc(watchers: seq<Watcher>, ids: seq<Metadata>, w: Watcher, tunnels: TunnelList, opts: ClientOpts, frequency: nat)
    requires Registered(watchers, ids, tunnels, opts, frequency)
    requires w.tunnels == tunnels && w.opts == opts && w.callbacks == [] && w.pending == Some(frequency)
    ensures Registered(watchers + [w], ids + [w.identity], tunnels, opts, frequency)
  {
  }

  /** `manageWebsocketConnections`. Returns the shared tunnel list, the
      per-integration outcomes and the watchers it registered, in order. */
  method ManageConnections(
    opts: ClientOpts, template: Metadata, bootstrap: Option<Config>,
    translate: string -> string, dispatcher: (string, string) -> Option<string>)
    returns (tunnels: TunnelList, outcomes: seq<Outcome>, watchers: seq<Watcher>)
    modifies opts
    ensures var c := if bootstrap.Some? then bootstrap.value else old(opts.config);
            && outcomes == PassOutcomes(template, c, translate, dispatcher)
            && opts.config == PassConfig(template, c, translate, dispatcher)
    // one watcher per watched integration, in order, sharing the list and the options
    ensures Registered(watchers, WatchedIdentities(outcomes), tunnels, opts, opts.config.connectionsManager.frequency)
    ensures forall w | w in watchers :: fresh(w)
    // the returned list is a new one, and every tunnel creation of the pass
    // was made with it
    ensures fresh(tunnels) && tunnels.requested == CreatedIdentities(outcomes)
  {
    // The bootstrap (remote configuration, OAuth, file checks, reloads):
    // `Some` is the configuration its last reload left, even when a later
    // step failed; `None` is a failure before any reload. A failure is
    // logged and swallowed.
    if bootstrap.Some? {
      opts.config := bootstrap.value;
    }
    tunnels, outcomes, watchers := ProcessAll(opts, template, translate, dispatcher);
  }

  /** The loop over `Object.keys(config.connections)`, with the list it
      shares. */
  method ProcessAll(
    opts: ClientOpts, template: Metadata,
    translate: string -> string, dispatcher: (string, string) -> Option<string>)
    returns (tunnels: TunnelList, outcomes: seq<Outcome>, watchers: seq<Watcher>)
    modifies opts
    ensures outcomes == PassOutcomes(template, old(opts.config), translate, dispatcher)
    ensures opts.config == PassConfig(template, old(opts.config), translate, dispatcher)
    ensures Registered(watchers, WatchedIdentities(outcomes), tunnels, opts, opts.config.connectionsManager.frequency)
    ensures forall w | w in watchers :: fresh(w)
    ensures fresh(tunnels) && tunnels.requested == CreatedIdentities(outcomes)
  {
    ghost var c := opts.config;
    tunnels := new TunnelList();
    var keys := if opts.config.connections.Some? then opts.config.connections.value.keys else [];
    outcomes := [];
    watchers := [];
    ghost var t: Connections := if c.connections.Some? then c.connections.value else ConnectionTable([], map[]);
    if c.connections.Some? {
      PersistedTableNone(t, template, c.haModeEnabled, translate, dispatcher);
    }
    for i := 0 to |keys|
      invariant keys == t.keys
      invariant c.connections.None? ==> keys == []
      invariant opts.config == PartialConfig(template, c, keys[..i], translate, dispatcher)
      invariant outcomes == Outcomes(template, keys[..i], t.entries, c.haModeEnabled, translate, dispatcher)
      invariant Registered(watchers, WatchedIdentities(outcomes), tunnels, opts, c.connectionsManager.frequency)
      invariant forall w | w in watchers :: fresh(w)
      invariant fresh(tunnels) && tunnels.requested == CreatedIdentities(outcomes)
    {
      outcomes, watchers := ProcessNext(opts, tunnels, template, c, t, i, outcomes, watchers, translate, dispatcher);
    }
    PassIsWholeLoop(template, c, t, translate, dispatcher);
  }

  /** The loop's state after its last key is the whole pass's. */
  lemma PassIsWholeLoop(
    template: Metadata, c: Config, t: Connections,
    translate: string -> string, dispatcher: (string, string) -> Option<string>)
    requires c.connections.None? ==> t.keys == []
    requires c.connections.Some? ==> c.connections == Some(t)
    ensures PartialConfig(template, c, t.keys[..|t.keys|], translate, dispatcher) == PassConfig(template, c, translate, dispatcher)
    ensures Outcomes(template, t.keys[..|t.keys|], t.entries, c.haModeEnabled, translate, dispatcher)
            == PassOutcomes(template, c, translate, dispatcher)
  {
    assert t.keys[..|t.keys|] == t.keys;
  }

  /** The body of the loop for its `i`-th key, with the loop's invariant
      before and after. */
  method ProcessNext(
    opts: ClientOpts, tunnels: TunnelList, template: Metadata, ghost c: Config, ghost t: Connections, i: nat,
    outcomes: seq<Outcome>, watchers: seq<Watcher>,
    translate: string -> string, dispatcher: (string, string) -> Option<string>)
    returns (outcomes': seq<Outcome>, watchers': seq<Watcher>)
    requires c.connections == Some(t) && i < |t.keys|
    requires opts.config == PartialConfig(template, c, t.keys[..i], translate, dispatcher)
    requires outcomes == Outcomes(template, t.keys[..i], t.entries, c.haModeEnabled, translate, dispatcher)
    requires Registered(watchers, WatchedIdentities(outcomes), tunnels, opts, c.connectionsManager.frequency)
    requires tunnels.requested == CreatedIdentities(outcomes)
    modifies opts, tunnels
    ensures opts.config == PartialConfig(template, c, t.keys[..i + 1], translate, dispatcher)
    ensures outcomes' == Outcomes(template, t.keys[..i + 1], t.entries, c.haModeEnabled, translate, dispatcher)
    ensures Registered(watchers', WatchedIdentities(outcomes'), tunnels, opts, c.connectionsManager.frequency)
    ensures forall w | w in watchers' && w !in watchers :: fresh(w)
    ensures watchers <= watchers'
    ensures tunnels.requested == CreatedIdentities(outcomes')
  {
    var key := opts.config.connections.value.keys[i];
    PartialConfigNext(template, c, t, i, translate, dispatcher);
    OutcomesNext(template, t, i, c.haModeEnabled, translate, dispatcher);
    var outcome;
    outcome, watchers' := ProcessIntegration(opts, tunnels, template, key, watchers, WatchedIdentities(outcomes), translate, dispatcher);
    WatchedIdentitiesSnoc(outcomes, outcome);
    CreatedIdentitiesAppend(outcomes, [outcome]);
    outcomes' := outcomes + [outcome];
  }

  /** The loop's configuration one key further: the `i`-th key's entry,
      still as loaded, is written with its shard. */
  lemma PartialConfigNext(
    template: Metadata, c: Config, t: Connections, i: nat,
    translate: string -> string, dispatcher: (string, string) -> Option<string>)
    requires c.connections == Some(t) && i < |t.keys|
    ensures var p := PartialConfig(template, c, t.keys[..i], translate, dispatcher);
            var key := t.keys[i];
            var e := t.entries[key];
            && p.connections.Some? && key in p.connections.value.entries
            && p.connections.value.entries[key] == e
            && p.haModeEnabled == c.haModeEnabled
            && PartialConfig(template, c, t.keys[..i + 1], translate, dispatcher)
               == p.(connections := Some(ConnectionTable(t.keys,
                    p.connections.value.entries[key := PersistShard(e, Decide(template, key, e, c.haModeEnabled, translate, dispatcher))])))
  {
    DistinctNotBefore(t.keys, i);
    assert t.keys[..i + 1] == t.keys[..i] + [t.keys[i]];
    PersistedTableSnoc(t, t.keys[..i], t.keys[i], template, c.haModeEnabled, translate, dispatcher);
  }

  /** The loop's outcomes one key further. */
  lemma OutcomesNext(
    template: Metadata, t: Connections, i: nat, haMode: Option<string>,
    translate: string -> string, dispatcher: (string, string) -> Option<string>)
    requires i < |t.keys|
    ensures Outcomes(template, t.keys[..i + 1], t.entries, haMode, translate, dispatcher)
            == Outcomes(template, t.keys[..i], t.entries, haMode, translate, dispatcher)
               + [Decide(template, t.keys[i], t.entries[t.keys[i]], haMode, translate, dispatcher)]
  {
    assert t.keys[..i + 1] == t.keys[..i] + [t.keys[i]];
    OutcomesSnoc(template, t.keys[..i], t.keys[i], t.entries, haMode, translate, dispatcher);
  }

  lemma {:induction false} OutcomesSnoc(
    template: Metadata, keys: seq<string>, key: string, entries: map<string, Entry>, haMode: Option<string>,
    translate: string -> string, dispatcher: (string, string) -> Option<string>)
    requires forall j | 0 <= j < |keys| :: keys[j] in entries
    requires key in entries
    ensures Outcomes(template, keys + [key], entries, haMode, translate, dispatcher)
            == Outcomes(template, keys, entries, haMode, translate, dispatcher)
               + [Decide(template, key, entries[key], haMode, translate, dispatcher)]
  {
  }

  lemma {:induction false} WatchedIdentitiesSnoc(os: seq<Outcome>, o: Outcome)
    ensures WatchedIdentities(os + [o]) == WatchedIdentities(os) + (if o.Watching? then [o.identity] else [])
    decreases |os|
  {
    if os != [] {
      assert (os + [o])[1..] == os[1..] + [o];
      WatchedIdentitiesSnoc(os[1..], o);
    } else {
      assert WatchedIdentities([o]) == (if o.Watching? then [o.identity] else []) + WatchedIdentities([]);
    }
  }

  lemma {:induction false} CreatedIdentitiesAppend(a: seq<Outcome>, b: seq<Outcome>)
    ensures CreatedIdentities(a + b) == CreatedIdentities(a) + CreatedIdentities(b)
    decreases |a|
  {
    if a != [] {
      assert (a + b)[1..] == a[1..] + b;
      CreatedIdentitiesAppend(a[1..], b);
    } else {
      assert a + b == b;
    }
  }
}
