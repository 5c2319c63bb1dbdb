/** The connection watcher (`setConnectionWatcher`): a per-integration
    polling loop that waits until the integration's connection entry gets a
    non-empty `identifier`, then hands the identity to the tunnel factory
    exactly once.

    Timers are replaced by an explicit `pending` delay (the delay of the
    check that is scheduled, or none), and each check is fed one input: the
    reloaded configuration, or the failure of the fetch-and-reload step. */
module ConnectionWatcher {
  import opened Common
  import opened ClientTypes

  /** `Object.assign({}, prev, reloaded)`: a shallow, last-wins merge over
      the top-level keys of the configuration. */
  function Merge(prev: Config, reloaded: Config): (r: Config)
    ensures r.connections == (if reloaded.connections.Some? then reloaded.connections else prev.connections)
    ensures r.haModeEnabled == (if reloaded.haModeEnabled.Some? then reloaded.haModeEnabled else prev.haModeEnabled)
    ensures r.connectionsManager == reloaded.connectionsManager
    ensures r.other.Keys == prev.other.Keys + reloaded.other.Keys
    ensures forall k :: k in reloaded.other ==> r.other[k] == reloaded.other[k]
    ensures forall k :: k in prev.other && k !in reloaded.other ==> r.other[k] == prev.other[k]
  {
    Config(
      if reloaded.connections.Some? then reloaded.connections else prev.connections,
      if reloaded.haModeEnabled.Some? then reloaded.haModeEnabled else prev.haModeEnabled,
      reloaded.connectionsManager,
      prev.other + reloaded.other)
  }

  /** Merging the same reload twice changes nothing more. */
  lemma MergeIdempotent(prev: Config, reloaded: Config)
    ensures Merge(Merge(prev, reloaded), reloaded) == Merge(prev, reloaded)
  {
    var once := Merge(prev, reloaded);
    assert once.other + reloaded.other == once.other;
  }

  /** The entry for `name` is present and claimed in `c`. */
  predicate ClaimedIn(c: Config, name: string) {
    var e := Lookup(c, name);
    e.Some? && Claimed(e.value)
  }

  /** What one check is fed: the configuration that the remote fetch and the
      reload produced, or the failure of either. */
  datatype CheckInput = Reloaded(snapshot: Config) | ReloadFailed(reason: string)

  /** The error a check logs and rethrows. */
  datatype CheckError =
    | ReloadError(reason: string)
    | NoSuchConnection(name: string)   // `connections[friendlyName]` is undefined

  datatype CheckResult = NowClaimed | StillUnclaimed | Rethrown(error: CheckError)

  /** Everything one watcher can observe or change: the shared configuration,
      the identity it watches, the delay of its pending check (if any) and
      the identities it has passed to the callback so far. */
  datatype WatchState = WatchState(
    config: Config,
    identity: Metadata,
    pending: Option<nat>,
    callbacks: seq<Metadata>)

  /** Registration: the first check runs after `frequency`. */
  function Start(config: Config, identity: Metadata): (s: WatchState)
    ensures s.pending == Some(config.connectionsManager.frequency)
    ensures s.callbacks == [] && s.identity == identity && s.config == config
  {
    WatchState(config, identity, Some(config.connectionsManager.frequency), [])
  }

  /** One check (`connectionWatcher`), run when the pending timer fires. */
  function Step(s: WatchState, input: CheckInput): (r: (WatchState, CheckResult))
    requires s.pending.Some?
    // only the identifier of the identity can change
    ensures r.0.identity == s.identity.(identifier := r.0.identity.identifier)
    // a failed fetch or reload leaves the configuration and schedules nothing
    ensures input.ReloadFailed? ==>
              r.0 == s.(pending := None) && r.1 == Rethrown(ReloadError(input.reason))
    ensures input.Reloaded? ==> r.0.config == Merge(s.config, input.snapshot)
    // an error is rethrown without a callback and without a reschedule
    ensures r.1.Rethrown? ==> r.0.pending.None? && r.0.callbacks == s.callbacks && r.0.identity == s.identity
    ensures r.1 == NowClaimed <==> input.Reloaded? && ClaimedIn(Merge(s.config, input.snapshot), s.identity.friendlyName)
    // the claim: copy the identifier, call back once, stop polling
    ensures r.1 == NowClaimed ==>
              && r.0.identity.identifier == Lookup(r.0.config, s.identity.friendlyName).value.identifier
              && r.0.callbacks == s.callbacks + [r.0.identity]
              && r.0.pending.None?
    // `connections[friendlyName]` undefined: the TypeError is rethrown
    ensures input.Reloaded? ==>
              (Lookup(Merge(s.config, input.snapshot), s.identity.friendlyName).None?
               <==> r.1 == Rethrown(NoSuchConnection(s.identity.friendlyName)))
    ensures r.1 == StillUnclaimed <==>
              && input.Reloaded?
              && Lookup(Merge(s.config, input.snapshot), s.identity.friendlyName).Some?
              && !Claimed(Lookup(Merge(s.config, input.snapshot), s.identity.friendlyName).value)
    // still unclaimed: exactly one new check, after `interval`
    ensures r.1 == StillUnclaimed ==>
              && r.0.pending == Some(r.0.config.connectionsManager.interval)
              && r.0.callbacks == s.callbacks && r.0.identity == s.identity
  {
    match input
    case ReloadFailed(reason) =>
      (s.(pending := None), Rethrown(ReloadError(reason)))
    case Reloaded(snapshot) =>
      var config := Merge(s.config, snapshot);
      var entry := Lookup(config, s.identity.friendlyName);
      if entry.None? then
        (s.(config := config, pending := None), Rethrown(NoSuchConnection(s.identity.friendlyName)))
      else if Claimed(entry.value) then
        var identity := s.identity.(identifier := entry.value.identifier);
        (WatchState(config, identity, None, s.callbacks + [identity]), NowClaimed)
      else
        (s.(config := config, pending := Some(config.connectionsManager.interval)), StillUnclaimed)
  }

  /** The self-rescheduling timer: checks run one after another while one is
      pending and inputs remain. */
  function Run(s: WatchState, inputs: seq<CheckInput>): WatchState
    decreases |inputs|
  {
    if inputs == [] || s.pending.None? then s else Run(Step(s, inputs[0]).0, inputs[1..])
  }

  /** Over any sequence of checks the callback fires at most once, and when
      it fires the watcher stops with a claimed identity. */
  lemma {:induction false} RunCallsBackAtMostOnce(s: WatchState, inputs: seq<CheckInput>)
    ensures var r := Run(s, inputs);
            || (r.callbacks == s.callbacks && r.identity == s.identity)
            || (&& s.pending.Some?
                && r.callbacks == s.callbacks + [r.identity]
                && r.pending.None?
                && r.identity == s.identity.(identifier := r.identity.identifier)
                && r.identity.identifier.Some? && r.identity.identifier.value != "")
    decreases |inputs|
  {
    if inputs != [] && s.pending.Some? {
      var (next, result) := Step(s, inputs[0]);
      if result == NowClaimed {
        var e := Lookup(next.config, s.identity.friendlyName);
        assert e.Some? && Claimed(e.value);
        assert Run(next, inputs[1..]) == next;
      } else {
        RunCallsBackAtMostOnce(next, inputs[1..]);
      }
    }
  }

  /** Once claimed (nothing pending), further inputs change nothing: the
      claimed state is terminal. */
  lemma RunAfterClaimIsInert(s: WatchState, inputs: seq<CheckInput>)
    requires s.pending.None?
    ensures Run(s, inputs) == s
  {
  }

  /** A watcher whose entry is unclaimed, fed reloads none of which claims
      it, never calls back. */
  lemma {:induction false} RunWithoutClaimNeverCallsBack(s: WatchState, inputs: seq<CheckInput>)
    requires !ClaimedIn(s.config, s.identity.friendlyName)
    requires forall i | 0 <= i < |inputs| :: inputs[i].Reloaded? ==> !ClaimedIn(inputs[i].snapshot, s.identity.friendlyName)
    ensures Run(s, inputs).callbacks == s.callbacks
    ensures Run(s, inputs).identity == s.identity
    decreases |inputs|
  {
    if inputs != [] && s.pending.Some? {
      var (next, result) := Step(s, inputs[0]);
      if inputs[0].Reloaded? {
        var merged := Merge(s.config, inputs[0].snapshot);
        assert merged.connections == inputs[0].snapshot.connections || merged.connections == s.config.connections;
        assert !ClaimedIn(merged, s.identity.friendlyName);
      }
      assert result != NowClaimed;
      assert next.identity == s.identity;
      forall i | 0 <= i < |inputs[1..]|
        ensures inputs[1..][i].Reloaded? ==> !ClaimedIn(inputs[1..][i].snapshot, s.identity.friendlyName)
      {
        assert inputs[1..][i] == inputs[i + 1];
      }
      RunWithoutClaimNeverCallsBack(next, inputs[1..]);
    }
  }

  /** Reloads that each carry a `connections` table with this entry
      unclaimed, followed by one that carries it claimed: the callback fires
      exactly at that reload, with that identifier, and nothing later
      matters. */
  lemma {:induction false} RunClaimsAtFirstClaimingReload(s: WatchState, inputs: seq<CheckInput>, j: nat)
    requires s.pending.Some?
    requires j < |inputs|
    requires forall i | 0 <= i <= j :: inputs[i].Reloaded? && Lookup(inputs[i].snapshot, s.identity.friendlyName).Some?
    requires forall i | 0 <= i < j :: !ClaimedIn(inputs[i].snapshot, s.identity.friendlyName)
    requires ClaimedIn(inputs[j].snapshot, s.identity.friendlyName)
    ensures var id := Lookup(inputs[j].snapshot, s.identity.friendlyName).value.identifier;
            && Run(s, inputs).callbacks == s.callbacks + [s.identity.(identifier := id)]
            && Run(s, inputs).pending.None?
    decreases j
  {
    var name := s.identity.friendlyName;
    var (next, result) := Step(s, inputs[0]);
    var merged := Merge(s.config, inputs[0].snapshot);
    assert merged.connections == inputs[0].snapshot.connections;
    assert Lookup(merged, name) == Lookup(inputs[0].snapshot, name);
    if j == 0 {
      assert result == NowClaimed;
      assert Run(next, inputs[1..]) == next;
    } else {
      assert result == StillUnclaimed;
      forall i | 0 <= i <= j - 1
        ensures inputs[1..][i].Reloaded? && Lookup(inputs[1..][i].snapshot, name).Some?
        ensures i < j - 1 ==> !ClaimedIn(inputs[1..][i].snapshot, name)
      {
        assert inputs[1..][i] == inputs[i + 1];
      }
      assert inputs[1..][j - 1] == inputs[j];
      RunClaimsAtFirstClaimingReload(next, inputs[1..], j - 1);
    }
  }

  /** One watcher: the state the source keeps in the closure of
      `setConnectionWatcher`. `opts` and `tunnels` are the objects shared
      with the manager; `callbacks` records each call
      `callBack(tunnels, opts, identity)`. */
  class Watcher {
    const opts: ClientOpts
    const tunnels: TunnelList
    var identity: Metadata
    var pending: Option<nat>
    var callbacks: seq<Metadata>

    function Current(): WatchState
      reads this, opts
    {
      WatchState(opts.config, identity, pending, callbacks)
    }

    /** `setConnectionWatcher`: schedules the first check after `frequency`. */
    constructor (opts: ClientOpts, tunnels: TunnelList, identity: Metadata)
      ensures this.opts == opts && this.tunnels == tunnels
      ensures Current() == Start(opts.config, identity)
    {
      this.opts := opts;
      this.tunnels := tunnels;
      this.identity := identity;
      this.pending := Some(opts.config.connectionsManager.frequency);
      this.callbacks := [];
    }

    /** The inner `connectionWatcher` check, run when the pending timer fires. */
    method Check(input: CheckInput) returns (result: CheckResult)
      requires pending.Some?
      modifies this, opts, tunnels
      ensures (Current(), result) == Step(old(Current()), input)
      // the callback is `createWebSocketConnectionPairs` on the shared list
      ensures callbacks == old(callbacks) + (if result == NowClaimed then [identity] else [])
      ensures tunnels.requested == old(tunnels.requested) + (if result == NowClaimed then [identity] else [])
    {
      match input {
        case ReloadFailed(reason) =>
          // the error is logged and rethrown; nothing is rescheduled
          pending := None;
          result := Rethrown(ReloadError(reason));
        case Reloaded(snapshot) =>
          opts.config := Merge(opts.config, snapshot);
          pending := None;  // clearTimeout
          var entry := Lookup(opts.config, identity.friendlyName);
          if entry.None? {
            result := Rethrown(NoSuchConnection(identity.friendlyName));
          } else if Claimed(entry.value) {
            identity := identity.(identifier := entry.value.identifier);
            callbacks := callbacks + [identity];
            tunnels.Create(identity);
            result := NowClaimed;
          } else {
            pending := Some(opts.config.connectionsManager.interval);
            result := StillUnclaimed;
          }
      }
    }

    /** Lets the timer fire once per input, for as long as a check is pending. */
    method Poll(inputs: seq<CheckInput>)
      modifies this, opts, tunnels
      ensures Current() == Run(old(Current()), inputs)
      // every callback of the run was a factory call on the shared list
      ensures |old(callbacks)| <= |callbacks|
      ensures tunnels.requested == old(tunnels.requested) + callbacks[|old(callbacks)|..]
    {
      var i := 0;
      while i < |inputs| && pending.Some?
        invariant 0 <= i <= |inputs|
        invariant Run(old(Current()), inputs) == Run(Current(), inputs[i..])
        invariant |old(callbacks)| <= |callbacks|
        invariant tunnels.requested == old(tunnels.requested) + callbacks[|old(callbacks)|..]
      {
        assert inputs[i..][1..] == inputs[i + 1..];
        ghost var made := callbacks;
        var r := Check(inputs[i]);
        assert callbacks[|old(callbacks)|..] == made[|old(callbacks)|..] + (if r == NowClaimed then [identity] else []);
        i := i + 1;
      }
    }
  }
}
