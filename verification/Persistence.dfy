/// The factory's stable storage: a state is split over a configuration cell and several tables,
/// and only what a writer changed is written back (backend/factory/src/state.rs).
module Persistence {
  import opened Bits
  import opened Options

  /// A stored record stands for its encoded bytes; the encoding itself is not modelled.
  type Stored = seq<byte>

  const STORAGE_SCHEMA_VERSION: nat := 5
  const PREVIOUS_STORAGE_SCHEMA_VERSION: nat := 4
  const LOCAL_EVM_CHAIN_ID: nat := 31337
  const LOCAL_EVM_CONFIRMATION_DEPTH: nat := 1
  const DEFAULT_EVM_CONFIRMATION_DEPTH: nat := 12

  function DefaultDepth(chainId: nat): nat {
    if chainId == LOCAL_EVM_CHAIN_ID then LOCAL_EVM_CONFIRMATION_DEPTH else DEFAULT_EVM_CONFIRMATION_DEPTH
  }

  datatype ReleaseConfig = ReleaseConfig(chainId: nat, rest: Stored)

  datatype RefundLease = RefundLease(generation: nat, expiresAt: nat)

  datatype FactoryState = FactoryState(
    repositoryStrategies: map<string, Stored>, sessions: map<string, Stored>, escrowClaims: map<string, Stored>,
    registry: map<string, Stored>, runtimes: map<string, Stored>, auditLog: map<string, seq<Stored>>,
    roomState: Stored, roomMessages: map<nat, Stored>, schedulerJobs: map<string, Stored>, schedulerRuntime: Stored,
    feeConfig: Stored, creationCostQuote: Stored, releaseConfig: ReleaseConfig, childRuntime: Stored, pause: bool,
    nextSessionNonce: nat, nextAutomatonNonce: nat, nextReleaseNonce: Option<nat>,
    stewardCommandNonces: map<string, nat>, stewardRefundsInFlight: set<string>,
    stewardRefundLeases: map<string, RefundLease>, paymentAddress: string, escrowContractAddress: string,
    paymentLastScannedBlock: Option<nat>, nextPaymentPollAt: Option<nat>, factoryEvmAddress: Option<string>,
    factoryEvmAddressDerivedAt: Option<nat>, baseRpcEndpoint: Option<string>, baseRpcFallbackEndpoint: Option<string>,
    cyclesPerSpawn: nat, minPoolBalance: nat, estimatedOutcallCyclesPerInterval: nat, evmConfirmationDepth: nat,
    wasmBytes: Option<Stored>, wasmSha256: Option<string>, pendingArtifactUpload: Option<Stored>,
    adminPrincipals: set<string>, sessionTtl: nat, versionCommit: string)

  /// The configuration cell. Fields added after the first release may be missing from old cells.
  datatype StableConfig = StableConfig(
    feeConfig: Stored, creationCostQuote: Stored, releaseConfig: ReleaseConfig, childRuntime: Option<Stored>, pause: bool,
    nextSessionNonce: nat, nextAutomatonNonce: nat, nextReleaseNonce: Option<nat>,
    stewardCommandNonces: Option<map<string, nat>>, stewardRefundsInFlight: Option<set<string>>,
    stewardRefundLeases: Option<map<string, RefundLease>>, paymentAddress: string, escrowContractAddress: string,
    paymentLastScannedBlock: Option<nat>, nextPaymentPollAt: Option<nat>, factoryEvmAddress: Option<string>,
    factoryEvmAddressDerivedAt: Option<nat>, baseRpcEndpoint: Option<string>, baseRpcFallbackEndpoint: Option<string>,
    cyclesPerSpawn: nat, minPoolBalance: nat, estimatedOutcallCyclesPerInterval: nat, evmConfirmationDepth: Option<nat>,
    wasmBytes: Option<Stored>, wasmSha256: Option<string>, pendingArtifactUpload: Option<Stored>,
    adminPrincipals: set<string>, sessionTtl: nat, versionCommit: string)

  datatype AuditEntries = AuditEntries(entries: seq<Stored>)

  /// Everything the storage holds at one moment.
  datatype Image = Image(
    schemaVersion: nat, config: StableConfig, schedulerRuntime: Stored, roomState: Stored,
    repositoryStrategies: map<string, Stored>, sessions: map<string, Stored>, spawnProviderSecrets: map<string, Stored>,
    escrowClaims: map<string, Stored>, registry: map<string, Stored>, runtimes: map<string, Stored>,
    auditLog: map<string, AuditEntries>, roomMessages: map<nat, Stored>, schedulerJobs: map<string, Stored>)

  /// The record a missing child runtime is read as.
  const DEFAULT_CHILD_RUNTIME: Stored := []

  /// `FactoryStableConfig::from`
  function FromState(s: FactoryState): StableConfig {
    StableConfig(
      s.feeConfig, s.creationCostQuote, s.releaseConfig, Some(s.childRuntime), s.pause,
      s.nextSessionNonce, s.nextAutomatonNonce, s.nextReleaseNonce,
      Some(s.stewardCommandNonces), Some(s.stewardRefundsInFlight),
      Some(s.stewardRefundLeases), s.paymentAddress, s.escrowContractAddress,
      s.paymentLastScannedBlock, s.nextPaymentPollAt, s.factoryEvmAddress,
      s.factoryEvmAddressDerivedAt, s.baseRpcEndpoint, s.baseRpcFallbackEndpoint,
      s.cyclesPerSpawn, s.minPoolBalance, s.estimatedOutcallCyclesPerInterval, Some(s.evmConfirmationDepth),
      s.wasmBytes, s.wasmSha256, s.pendingArtifactUpload, s.adminPrincipals, s.sessionTtl, s.versionCommit)
  }

  function Unwrapped(log: map<string, AuditEntries>): map<string, seq<Stored>> {
    map id | id in log :: log[id].entries
  }

  /// `FactoryStableConfig::into_state` over the loaded tables.
  function IntoState(m: Image): FactoryState {
    var c := m.config;
    FactoryState(
      m.repositoryStrategies, m.sessions, m.escrowClaims, m.registry, m.runtimes, Unwrapped(m.auditLog),
      m.roomState, m.roomMessages, m.schedulerJobs, m.schedulerRuntime,
      c.feeConfig, c.creationCostQuote, c.releaseConfig, c.childRuntime.GetOr(DEFAULT_CHILD_RUNTIME), c.pause,
      c.nextSessionNonce, c.nextAutomatonNonce, c.nextReleaseNonce,
      c.stewardCommandNonces.GetOr(map[]), c.stewardRefundsInFlight.GetOr({}),
      c.stewardRefundLeases.GetOr(map[]), c.paymentAddress, c.escrowContractAddress,
      c.paymentLastScannedBlock, c.nextPaymentPollAt, c.factoryEvmAddress,
      c.factoryEvmAddressDerivedAt, c.baseRpcEndpoint, c.baseRpcFallbackEndpoint,
      c.cyclesPerSpawn, c.minPoolBalance, c.estimatedOutcallCyclesPerInterval,
      c.evmConfirmationDepth.GetOr(DefaultDepth(c.releaseConfig.chainId)),
      c.wasmBytes, c.wasmSha256, c.pendingArtifactUpload, c.adminPrincipals, c.sessionTtl, c.versionCommit)
  }

  predicate Supported(m: Image) {
    m.schemaVersion == STORAGE_SCHEMA_VERSION || m.schemaVersion == PREVIOUS_STORAGE_SCHEMA_VERSION
  }

  /// `load_state`; an unsupported schema traps.
  function Load(m: Image): Option<FactoryState> {
    if Supported(m) then Some(IntoState(m)) else None
  }

  /// Exactly schemas 4 and 5 load. What an old cell lacks is read as nothing, and a missing depth as one
  /// block on the local chain and twelve on any other; what it holds is kept.
  lemma OldCellsLoad(m: Image)
    ensures Load(m).Some? <==> m.schemaVersion == 4 || m.schemaVersion == 5
    ensures Load(m).Some? ==>
      (var s, c := Load(m).value, m.config;
       s.evmConfirmationDepth
         == (if c.evmConfirmationDepth.Some? then c.evmConfirmationDepth.value else if c.releaseConfig.chainId == 31337 then 1 else 12)
       && s.stewardCommandNonces == (if c.stewardCommandNonces.Some? then c.stewardCommandNonces.value else map[])
       && s.stewardRefundsInFlight == (if c.stewardRefundsInFlight.Some? then c.stewardRefundsInFlight.value else {})
       && s.stewardRefundLeases == (if c.stewardRefundLeases.Some? then c.stewardRefundLeases.value else map[])
       && s.childRuntime == (if c.childRuntime.Some? then c.childRuntime.value else DEFAULT_CHILD_RUNTIME))
  {
  }

  // ---------------------------------------------------------------- deltas

  predicate Changed<K, V(==)>(k: K, current: map<K, V>, next: map<K, V>) {
    k in next && (k !in current || current[k] != next[k])
  }

  /// A table after a delta: keys that left `current` go, keys whose value changed are written,
  /// every other stored entry is left as it was found.
  function Delta<K, V(==)>(stored: map<K, V>, current: map<K, V>, next: map<K, V>): map<K, V> {
    map k | k in stored.Keys + next.Keys && (Changed(k, current, next) || (k in stored && (k in current ==> k in next)))
      :: if Changed(k, current, next) then next[k] else stored[k]
  }

  /// Synchronising a table that held the state before the writer leaves the state after it.
  lemma DeltaFromCurrentIsNext<K, V>(current: map<K, V>, next: map<K, V>)
    ensures Delta(current, current, next) == next
  {
    assert Delta(current, current, next).Keys == next.Keys;
  }

  method SyncCollection<K(==), V(==)>(stored: map<K, V>, current: map<K, V>, next: map<K, V>)
    returns (updated: map<K, V>)
    ensures updated == Delta(stored, current, next)
  {
    updated := stored;
    var keys := current.Keys;
    while keys != {}
      invariant keys <= current.Keys
      invariant forall k :: k in updated <==> k in stored && (k in current ==> k in next || k in keys)
      invariant forall k :: k in updated ==> updated[k] == stored[k]
    {
      var key :| key in keys;
      if key !in next {
        updated := updated - {key};
      }
      keys := keys - {key};
    }
    keys := next.Keys;
    while keys != {}
      invariant keys <= next.Keys
      invariant forall k :: k in updated <==>
        (Changed(k, current, next) && k !in keys) || (k in stored && (k in current ==> k in next))
      invariant forall k :: k in updated && Changed(k, current, next) && k !in keys ==> updated[k] == next[k]
      invariant forall k :: k in updated && !(Changed(k, current, next) && k !in keys) ==> updated[k] == stored[k]
    {
      var key :| key in keys;
      if key !in current || current[key] != next[key] {
        updated := updated[key := next[key]];
      }
      keys := keys - {key};
    }
  }

  function Wrapped(log: map<string, seq<Stored>>): map<string, AuditEntries> {
    map id | id in log :: AuditEntries(log[id])
  }

  /// `sync_audit_log`: the same, but the table holds each session's entries in one record.
  method SyncAuditLog(stored: map<string, AuditEntries>, current: map<string, seq<Stored>>, next: map<string, seq<Stored>>)
    returns (updated: map<string, AuditEntries>)
    ensures updated == Delta(stored, Wrapped(current), Wrapped(next))
  {
    updated := stored;
    var keys := current.Keys;
    while keys != {}
      invariant keys <= current.Keys
      invariant forall k :: k in updated <==> k in stored && (k in current ==> k in next || k in keys)
      invariant forall k :: k in updated ==> updated[k] == stored[k]
    {
      var key :| key in keys;
      if key !in next {
        updated := updated - {key};
      }
      keys := keys - {key};
    }
    keys := next.Keys;
    while keys != {}
      invariant keys <= next.Keys
      invariant forall k :: k in updated <==>
        (Changed(k, current, next) && k !in keys) || (k in stored && (k in current ==> k in next))
      invariant forall k :: k in updated && Changed(k, current, next) && k !in keys ==> updated[k] == AuditEntries(next[k])
      invariant forall k :: k in updated && !(Changed(k, current, next) && k !in keys) ==> updated[k] == stored[k]
    {
      var key :| key in keys;
      if key !in current || current[key] != next[key] {
        updated := updated[key := AuditEntries(next[key])];
      }
      keys := keys - {key};
    }
    AuditDelta(updated, stored, current, next);
  }

  lemma AuditDelta(updated: map<string, AuditEntries>, stored: map<string, AuditEntries>,
                   current: map<string, seq<Stored>>, next: map<string, seq<Stored>>)
    requires forall k :: k in updated <==> Changed(k, current, next) || (k in stored && (k in current ==> k in next))
    requires forall k :: k in updated && Changed(k, current, next) ==> updated[k] == AuditEntries(next[k])
    requires forall k :: k in updated && !Changed(k, current, next) ==> updated[k] == stored[k]
    ensures updated == Delta(stored, Wrapped(current), Wrapped(next))
  {
    forall k: string
      ensures Changed(k, current, next) <==> Changed(k, Wrapped(current), Wrapped(next))
    {
    }
    var delta := Delta(stored, Wrapped(current), Wrapped(next));
    assert updated.Keys == delta.Keys;
  }

  lemma WrappedUnwrapped(log: map<string, AuditEntries>, next: map<string, seq<Stored>>)
    ensures Wrapped(Unwrapped(log)) == log
    ensures Unwrapped(Wrapped(next)) == next
  {
  }

  // ---------------------------------------------------------------- whole states

  /// `persist_delta` on what is stored.
  function Persisted(m: Image, current: FactoryState, next: FactoryState): Image {
    Image(
      STORAGE_SCHEMA_VERSION, if FromState(current) != FromState(next) then FromState(next) else m.config,
      next.schedulerRuntime, next.roomState,
      Delta(m.repositoryStrategies, current.repositoryStrategies, next.repositoryStrategies),
      Delta(m.sessions, current.sessions, next.sessions), m.spawnProviderSecrets,
      Delta(m.escrowClaims, current.escrowClaims, next.escrowClaims),
      Delta(m.registry, current.registry, next.registry),
      Delta(m.runtimes, current.runtimes, next.runtimes),
      Delta(m.auditLog, Wrapped(current.auditLog), Wrapped(next.auditLog)),
      Delta(m.roomMessages, current.roomMessages, next.roomMessages),
      Delta(m.schedulerJobs, current.schedulerJobs, next.schedulerJobs))
  }

  lemma TablesAreNext(m: Image, next: FactoryState)
    ensures var p := Persisted(m, IntoState(m), next);
      p.repositoryStrategies == next.repositoryStrategies && p.sessions == next.sessions
      && p.escrowClaims == next.escrowClaims && p.registry == next.registry && p.runtimes == next.runtimes
      && p.roomMessages == next.roomMessages && p.schedulerJobs == next.schedulerJobs
      && Unwrapped(p.auditLog) == next.auditLog
  {
    var current := IntoState(m);
    DeltaFromCurrentIsNext(current.repositoryStrategies, next.repositoryStrategies);
    DeltaFromCurrentIsNext(current.sessions, next.sessions);
    DeltaFromCurrentIsNext(current.escrowClaims, next.escrowClaims);
    DeltaFromCurrentIsNext(current.registry, next.registry);
    DeltaFromCurrentIsNext(current.runtimes, next.runtimes);
    DeltaFromCurrentIsNext(current.roomMessages, next.roomMessages);
    DeltaFromCurrentIsNext(current.schedulerJobs, next.schedulerJobs);
    WrappedUnwrapped(m.auditLog, next.auditLog);
    DeltaFromCurrentIsNext(m.auditLog, Wrapped(next.auditLog));
  }

  /// Writing only the difference is writing the whole state: what is loaded afterwards is exactly
  /// what the writer left, from a current or a previous schema, and the secrets are untouched.
  lemma DeltaIsReplacement(m: Image, next: FactoryState)
    requires Supported(m)
    ensures Load(Persisted(m, IntoState(m), next)) == Some(next)
    ensures Persisted(m, IntoState(m), next).schemaVersion == STORAGE_SCHEMA_VERSION
    ensures Persisted(m, IntoState(m), next).spawnProviderSecrets == m.spawnProviderSecrets
  {
    TablesAreNext(m, next);
    ConfigIsNext(m, next);
  }

  /// An unchanged configuration is not rewritten, so an old cell keeps its missing fields; they go
  /// on being read the same way because everything they are derived from is unchanged too.
  lemma ConfigIsNext(m: Image, next: FactoryState)
    ensures var p := Persisted(m, IntoState(m), next);
      FromState(IntoState(p)) == FromState(next)
    ensures FromState(IntoState(m)) == FromState(next) ==> Persisted(m, IntoState(m), next).config == m.config
  {
  }

  function Runs(state: FactoryState, writers: seq<FactoryState -> FactoryState>): FactoryState
    decreases |writers|
  {
    if writers == [] then state else Runs(writers[0](state), writers[1..])
  }

  function PersistedRuns(m: Image, writers: seq<FactoryState -> FactoryState>): Image
    decreases |writers|
  {
    if writers == [] then m
    else PersistedRuns(Persisted(m, IntoState(m), writers[0](IntoState(m))), writers[1..])
  }

  /// Any run of writers, each persisted as a delta of its own, agrees with the run in memory.
  lemma {:induction false} RunsAgree(m: Image, writers: seq<FactoryState -> FactoryState>)
    requires Supported(m)
    ensures Load(PersistedRuns(m, writers)) == Some(Runs(IntoState(m), writers))
    decreases |writers|
  {
    if writers != [] {
      var next := writers[0](IntoState(m));
      DeltaIsReplacement(m, next);
      RunsAgree(Persisted(m, IntoState(m), next), writers[1..]);
    }
  }

  // ---------------------------------------------------------------- the storage

  class FactoryStableStorage {
    var schemaVersion: nat
    var config: StableConfig
    var schedulerRuntime: Stored
    var roomState: Stored
    var repositoryStrategies: map<string, Stored>
    var sessions: map<string, Stored>
    var spawnProviderSecrets: map<string, Stored>
    var escrowClaims: map<string, Stored>
    var registry: map<string, Stored>
    var runtimes: map<string, Stored>
    var auditLog: map<string, AuditEntries>
    var roomMessages: map<nat, Stored>
    var schedulerJobs: map<string, Stored>

    function Contents(): Image
      reads this
    {
      Image(schemaVersion, config, schedulerRuntime, roomState, repositoryStrategies, sessions, spawnProviderSecrets,
            escrowClaims, registry, runtimes, auditLog, roomMessages, schedulerJobs)
    }

    constructor (image: Image)
      ensures Contents() == image
    {
      schemaVersion, config := image.schemaVersion, image.config;
      schedulerRuntime, roomState := image.schedulerRuntime, image.roomState;
      repositoryStrategies, sessions := image.repositoryStrategies, image.sessions;
      spawnProviderSecrets, escrowClaims := image.spawnProviderSecrets, image.escrowClaims;
      registry, runtimes, auditLog := image.registry, image.runtimes, image.auditLog;
      roomMessages, schedulerJobs := image.roomMessages, image.schedulerJobs;
    }

    method PersistCells(current: FactoryState, next: FactoryState)
      modifies `schemaVersion, `config, `schedulerRuntime, `roomState
      ensures schemaVersion == STORAGE_SCHEMA_VERSION
      ensures config == if FromState(current) != FromState(next) then FromState(next) else old(config)
      ensures schedulerRuntime == next.schedulerRuntime && roomState == next.roomState
    {
      if schemaVersion != STORAGE_SCHEMA_VERSION {
        schemaVersion := STORAGE_SCHEMA_VERSION;
      }
      if FromState(current) != FromState(next) {
        config := FromState(next);
      }
      if schedulerRuntime != next.schedulerRuntime {
        schedulerRuntime := next.schedulerRuntime;
      }
      if roomState != next.roomState {
        roomState := next.roomState;
      }
    }

    method PersistTables(current: FactoryState, next: FactoryState)
      modifies `repositoryStrategies, `sessions, `escrowClaims, `registry, `runtimes, `roomMessages, `schedulerJobs, `auditLog
      ensures repositoryStrategies == Delta(old(repositoryStrategies), current.repositoryStrategies, next.repositoryStrategies)
      ensures sessions == Delta(old(sessions), current.sessions, next.sessions)
      ensures escrowClaims == Delta(old(escrowClaims), current.escrowClaims, next.escrowClaims)
      ensures registry == Delta(old(registry), current.registry, next.registry)
      ensures runtimes == Delta(old(runtimes), current.runtimes, next.runtimes)
      ensures roomMessages == Delta(old(roomMessages), current.roomMessages, next.roomMessages)
      ensures schedulerJobs == Delta(old(schedulerJobs), current.schedulerJobs, next.schedulerJobs)
      ensures auditLog == Delta(old(auditLog), Wrapped(current.auditLog), Wrapped(next.auditLog))
    {
      repositoryStrategies := SyncCollection(repositoryStrategies, current.repositoryStrategies, next.repositoryStrategies);
      sessions := SyncCollection(sessions, current.sessions, next.sessions);
      escrowClaims := SyncCollection(escrowClaims, current.escrowClaims, next.escrowClaims);
      registry := SyncCollection(registry, current.registry, next.registry);
      runtimes := SyncCollection(runtimes, current.runtimes, next.runtimes);
      roomMessages := SyncCollection(roomMessages, current.roomMessages, next.roomMessages);
      schedulerJobs := SyncCollection(schedulerJobs, current.schedulerJobs, next.schedulerJobs);
      auditLog := SyncAuditLog(auditLog, current.auditLog, next.auditLog);
    }

    method PersistDelta(current: FactoryState, next: FactoryState)
      modifies this
      ensures Contents() == Persisted(old(Contents()), current, next)
    {
      PersistCells(current, next);
      PersistTables(current, next);
    }

    /// `mutate`: the writer's state is stored whatever the writer returns, an error included.
    /// Without a supported schema the call traps and nothing changes.
    method Mutate<T>(writer: FactoryState -> (FactoryState, T)) returns (result: Option<T>)
      modifies this
      ensures result.Some? <==> Supported(old(Contents()))
      ensures result.None? ==> Contents() == old(Contents())
      ensures result.Some? ==>
        Load(Contents()) == Some(writer(IntoState(old(Contents()))).0)
        && result.value == writer(IntoState(old(Contents()))).1
        && spawnProviderSecrets == old(spawnProviderSecrets)
    {
      if !Supported(Contents()) {
        return None;
      }
      var current := IntoState(Contents());
      var (next, answer) := writer(current);
      DeltaIsReplacement(Contents(), next);
      PersistDelta(current, next);
      result := Some(answer);
    }
  }
}
