/// Exactly when the stored signed bytes of a refund can be lost: when some call of the session that
/// does not carry them has the lease, or may still be given it
/// (backend/factory/src/api/public.rs:714-728 and 821-831, backend/factory/src/escrow.rs).
module RefundExact {
  import opened Bits
  import opened Escrow
  import opened Evm
  import Factory
  import FactoryRuns
  import opened Hex
  import Invariants
  import opened Limits
  import opened Options
  import opened RefundDraft
  import opened Refund
  import RefundReuse
  import opened RefundRuns
  import opened RefundSecure
  import opened RefundTidy
  import opened RlpEncoder
  import Sanitize

  // ---------------------------------------------------------------- reachable worlds

  ghost predicate Reaches(keccak: Keccak, w: World, v: World) {
    exists steps :: CanRun(keccak, w, steps) && Run(keccak, w, steps) == v
  }

  function TimeOf(step: Step): Option<nat> {
    match step
    case Elsewhere(s) => FactoryRuns.Time(s)
    case Command(_, _, now) => Some(now)
    case _ => None
  }

  /// The clock does not run backwards from `since`.
  predicate Clocked(steps: seq<Step>, since: nat)
    decreases |steps|
  {
    steps == [] || (TimeOf(steps[0]).GetOr(since) >= since && Clocked(steps[1..], TimeOf(steps[0]).GetOr(since)))
  }

  ghost predicate ReachesBy(keccak: Keccak, w: World, v: World, since: nat) {
    exists steps :: CanRun(keccak, w, steps) && Run(keccak, w, steps) == v && Clocked(steps, since)
  }

  lemma ReachesSelf(keccak: Keccak, w: World, since: nat)
    ensures ReachesBy(keccak, w, w, since)
  {
    assert CanRun(keccak, w, []) && Run(keccak, w, []) == w && Clocked([], since);
  }

  lemma ReachesFirst(keccak: Keccak, w: World, step: Step, v: World, since: nat)
    requires Enabled(w, step) && TimeOf(step).GetOr(since) >= since
    requires ReachesBy(keccak, After(keccak, w, step), v, TimeOf(step).GetOr(since))
    ensures ReachesBy(keccak, w, v, since)
  {
    hide Enabled, After, TimeOf;
    var next := TimeOf(step).GetOr(since);
    var steps :| CanRun(keccak, After(keccak, w, step), steps) && Run(keccak, After(keccak, w, step), steps) == v && Clocked(steps, next);
    assert ([step] + steps)[1..] == steps;
    assert CanRun(keccak, w, [step] + steps) && Run(keccak, w, [step] + steps) == v && Clocked([step] + steps, since);
  }

  lemma {:induction false} ClockedSooner(steps: seq<Step>, since: nat, later: nat)
    requires since <= later && Clocked(steps, later)
    ensures Clocked(steps, since)
    decreases |steps|
  {
    if steps != [] && TimeOf(steps[0]).None? {
      ClockedSooner(steps[1..], since, later);
    }
  }

  /// Some run with an ordinary clock loses the bytes.
  ghost predicate CanLose(keccak: Keccak, w: World, s: string, raw: string, since: nat) {
    exists v :: ReachesBy(keccak, w, v, since) && !HasBytes(v, s, raw)
  }

  lemma LosesSooner(keccak: Keccak, w: World, s: string, raw: string, since: nat, later: nat)
    requires since <= later && CanLose(keccak, w, s, raw, later)
    ensures CanLose(keccak, w, s, raw, since)
  {
    hide CanRun, Run, HasBytes, Clocked;
    var v :| ReachesBy(keccak, w, v, later) && !HasBytes(v, s, raw);
    var steps :| CanRun(keccak, w, steps) && Run(keccak, w, steps) == v && Clocked(steps, later);
    ClockedSooner(steps, since, later);
    assert ReachesBy(keccak, w, v, since);
  }

  lemma LosesNow(keccak: Keccak, w: World, s: string, raw: string, since: nat)
    requires !HasBytes(w, s, raw)
    ensures CanLose(keccak, w, s, raw, since)
  {
    ReachesSelf(keccak, w, since);
  }

  lemma LosesLater(keccak: Keccak, w: World, step: Step, s: string, raw: string, since: nat)
    requires Enabled(w, step) && TimeOf(step).GetOr(since) >= since
    requires CanLose(keccak, After(keccak, w, step), s, raw, TimeOf(step).GetOr(since))
    ensures CanLose(keccak, w, s, raw, since)
  {
    hide Enabled, After, HasBytes, ReachesBy, TimeOf;
    var v :| ReachesBy(keccak, After(keccak, w, step), v, TimeOf(step).GetOr(since)) && !HasBytes(v, s, raw);
    ReachesFirst(keccak, w, step, v, since);
  }

  lemma LosesNext(keccak: Keccak, w: World, step: Step, s: string, raw: string, since: nat)
    requires Enabled(w, step) && step.Continue? && !HasBytes(After(keccak, w, step), s, raw)
    ensures CanLose(keccak, w, s, raw, since)
  {
    hide Enabled, After, HasBytes;
    LosesNow(keccak, After(keccak, w, step), s, raw, since);
    LosesLater(keccak, w, step, s, raw, since);
  }

  // ---------------------------------------------------------------- a threat that has the lease

  /// A call of the session that holds the lease and not the bytes.
  predicate Armed(w: World, k: nat, s: string, raw: string) {
    HolderOf(w, k, s) && !Carries(w.calls[k], raw)
  }

  /// A call at a nonce rebuilds the stored draft.
  lemma NonceRebuilds(keccak: Keccak, w: World, k: nat)
    requires k in w.calls && w.calls[k].session in w.records && DraftOk(keccak, w, w.calls[k].session)
    ensures var c := w.calls[k];
      var draft := Draft(keccak, w, c, 0);
      draft.Some? && draft.value.0 == w && draft.value.1.rawHex.None?
  {
    var c := w.calls[k];
    var record := w.records[c.session];
    ValidatesByTransaction(keccak, record, ClaimOf(w, c.session), Steward(w, c.session), "");
    ValidatesByTransaction(keccak, record, ClaimOf(w, c.session), Steward(w, c.session), c.config.keyName);
    ValidBuilds(keccak, record, ClaimOf(w, c.session), Steward(w, c.session), c.config.keyName);
    var config := ValidateDraft(keccak, record, ClaimOf(w, c.session), Steward(w, c.session), c.config.keyName).value;
    DraftIsBare(keccak, record.claimId, record.recipient, record.escrow, record.nonce, config);
    hide ValidateDraft, BuildDraft, RecordTransaction, SigningPayload, KeccakHex;
  }

  lemma ValidBuilds(keccak: Keccak, record: Record, claimId: string, recipient: string, keyName: string)
    requires ValidateDraft(keccak, record, claimId, recipient, keyName).Ok?
    ensures BuildDraft(keccak, record.claimId, record.recipient, record.escrow, record.nonce,
                       ValidateDraft(keccak, record, claimId, recipient, keyName).value).Ok?
  {
    hide BuildDraft;
  }

  lemma UnsignedLoses(keccak: Keccak, w: World, k: nat, s: string, raw: string, since: nat)
    requires Armed(w, k, s, raw) && PhaseTidy(keccak, w.calls[k].phase) && (w.calls[k].phase.AtKey? || w.calls[k].phase.AtSign?)
    ensures CanLose(keccak, w, s, raw, since)
  {
    UnsignedStores(keccak, w, k);
    hide Resume;
    LosesNext(keccak, w, Continue(k, Failed), s, raw, since);
  }

  lemma UnsignedStores(keccak: Keccak, w: World, k: nat)
    requires k in w.calls && Holds(w, w.calls[k]) && PhaseTidy(keccak, w.calls[k].phase)
    requires w.calls[k].phase.AtKey? || w.calls[k].phase.AtSign?
    ensures var v := Resume(keccak, w, k, Failed); w.calls[k].session in v.records && v.records[w.calls[k].session].rawHex.None?
  {
  }

  lemma NonceLoses(keccak: Keccak, w: World, k: nat, s: string, raw: string, since: nat)
    requires Armed(w, k, s, raw) && w.calls[k].phase.AtNonce? && s in w.records && DraftOk(keccak, w, s)
    ensures CanLose(keccak, w, s, raw, since)
  {
    hide Resume, Draft, DraftOk, CanLose, WithSignature;
    NonceRebuilds(keccak, w, k);
    var plan := Draft(keccak, w, w.calls[k], 0).value.1;
    RefundReuse.NonceStep(keccak, w, k, 0);
    var v := Waiting(w, k, w.calls[k].(phase := AtKey(plan)));
    KeyIsTidy(keccak, plan);
    UnsignedLoses(keccak, v, k, s, raw, since);
    LosesLater(keccak, w, Continue(k, PendingNonce(0)), s, raw, since);
  }

  lemma KeyIsTidy(keccak: Keccak, plan: Record)
    requires plan.rawHex.None?
    ensures PhaseTidy(keccak, AtKey(plan))
  {
  }

  /// A hash as the factory prints it is in lower case.
  lemma {:induction false} PrintedIsLower(bytes: seq<byte>)
    ensures forall i :: 0 <= i < |HexText(bytes)| ==> Sanitize.LowerChar(HexText(bytes)[i]) == HexText(bytes)[i]
    ensures Sanitize.ToAsciiLowercase(Prefixed(bytes)) == Prefixed(bytes)
    decreases |bytes|
  {
    if bytes != [] {
      PrintedIsLower(bytes[1..]);
    }
  }

  lemma SentStores(keccak: Keccak, w: World, k: nat, raw: string)
    requires k in w.calls && Holds(w, w.calls[k]) && w.calls[k].phase.AtSend? && CheckRaw(keccak, w.calls[k].phase.plan).Ok?
    requires w.calls[k].phase.plan.rawHex != Some(raw)
    ensures w.calls[k].phase.plan.rawHash.Some?
    ensures !HasBytes(Resume(keccak, w, k, Hash(w.calls[k].phase.plan.rawHash.value)), w.calls[k].session, raw)
  {
    var plan := w.calls[k].phase.plan;
    PrintedIsLower(keccak(CheckRaw(keccak, plan).value));
    hide Decoded;
  }

  lemma ConfirmStores(keccak: Keccak, w: World, k: nat, raw: string)
    requires k in w.calls && Holds(w, w.calls[k]) && w.calls[k].phase.AtConfirm? && w.calls[k].phase.plan.rawHex != Some(raw)
    ensures !HasBytes(Resume(keccak, w, k, Confirmation(0, None, "")), w.calls[k].session, raw)
  {
  }

  lemma SignedLoses(keccak: Keccak, w: World, k: nat, s: string, raw: string, since: nat)
    requires Armed(w, k, s, raw) && PhaseTidy(keccak, w.calls[k].phase) && (w.calls[k].phase.AtSend? || w.calls[k].phase.AtConfirm?)
    ensures CanLose(keccak, w, s, raw, since)
  {
    hide CanLose, Resume, CheckRaw, HasBytes;
    match w.calls[k].phase
    case AtSend(plan, _) =>
      SentStores(keccak, w, k, raw);
      LosesNext(keccak, w, Continue(k, Hash(plan.rawHash.value)), s, raw, since);
    case AtConfirm(_, _, _) =>
      ConfirmStores(keccak, w, k, raw);
      LosesNext(keccak, w, Continue(k, Confirmation(0, None, "")), s, raw, since);
  }

  /// It overwrites them.
  lemma ArmedLoses(keccak: Keccak, w: World, k: nat, s: string, raw: string, since: nat)
    requires Tidy(keccak, w) && HasBytes(w, s, raw) && Armed(w, k, s, raw)
    ensures CanLose(keccak, w, s, raw, since)
  {
    hide CallTidy, LeaseTidy, RecordTidy, DraftOk, CanLose, PhaseTidy, Carries;
    TidyParts(keccak, w, k);
    if w.calls[k].phase.AtNonce? {
      NonceLoses(keccak, w, k, s, raw, since);
    } else if w.calls[k].phase.AtKey? || w.calls[k].phase.AtSign? {
      UnsignedLoses(keccak, w, k, s, raw, since);
    } else {
      SignedLoses(keccak, w, k, s, raw, since);
    }
  }

  // ---------------------------------------------------------------- getting the lease

  /// A world with the bytes, and a call `k` of generation `g` that does not carry them.
  ghost predicate Waits(keccak: Keccak, w: World, s: string, raw: string, k: nat, c: Call) {
    Sound(w) && Tidy(keccak, w) && HasBytes(w, s, raw) && !Settled(w, s)
    && k in w.calls && w.calls[k] == c && c.session == s && !Carries(c, raw)
  }

  /// Failing a call that carries the bytes returns the lease and leaves the bytes.
  lemma CarrierFails(keccak: Keccak, w: World, j: nat, raw: string)
    requires j in w.calls && Holds(w, w.calls[j]) && Carries(w.calls[j], raw) && HasBytes(w, w.calls[j].session, raw)
    ensures var v := Resume(keccak, w, j, Failed);
      HasBytes(v, w.calls[j].session, raw) && v.calls == w.calls - {j} && v.st == w.st && v.leases == w.leases - {w.calls[j].session}
  {
  }

  lemma LeaseReturned(keccak: Keccak, w: World, s: string, raw: string, k: nat, c: Call, since: nat)
    requires Waits(keccak, w, s, raw, k, c) && s in w.leases && !Holds(w, c) && OpenFor(w, s)
    ensures CanLose(keccak, w, s, raw, since)
  {
    hide Sound, Tidy, Carries, Resume, Settled, Climbs, CanLose, HasBytes, OpenFor, After, Keeps;
    var j := TheHolder(keccak, w, s);
    if !Carries(w.calls[j], raw) {
      ArmedLoses(keccak, w, j, s, raw, since);
    } else {
      var step := Continue(j, Failed);
      CarrierFails(keccak, w, j, raw);
      ContinueIsResume(keccak, w, j, Failed);
      var v := Resume(keccak, w, j, Failed);
      StepKeeps(keccak, w, step);
      StepTidy(keccak, w, step);
      SameStanding(w, v, s);
      ClimbsFromNone(keccak, v, s, raw, k, c, since);
      Climb(keccak, v, s, raw, k, c, 0, since);
      LosesLater(keccak, w, step, s, raw, since);
    }
  }

  lemma ContinueIsResume(keccak: Keccak, w: World, j: nat, answer: Answer)
    requires j in w.calls
    ensures Enabled(w, Continue(j, answer)) && After(keccak, w, Continue(j, answer)) == Resume(keccak, w, j, answer)
  {
    hide Resume;
  }

  lemma SameStanding(w: World, v: World, s: string)
    requires v.st == w.st
    ensures Settled(v, s) == Settled(w, s) && OpenFor(v, s) == OpenFor(w, s)
  {
  }

  lemma TheHolder(keccak: Keccak, w: World, s: string) returns (j: nat)
    requires Tidy(keccak, w) && s in w.leases
    ensures HolderOf(w, j, s)
  {
    assert LeaseTidy(w, s);
    j :| HolderOf(w, j, s);
  }

  /// The session is expired and refundable, whatever the time.
  predicate OpenFor(w: World, s: string) {
    RefundReuse.Refundable(w.st, s)
  }

  /// On the way to the generation of `c`: no lease yet, or one of generation `h` that is over at `t`.
  ghost predicate Climbs(keccak: Keccak, w: World, s: string, raw: string, k: nat, c: Call, h: nat, t: nat) {
    Waits(keccak, w, s, raw, k, c) && OpenFor(w, s) && h <= c.generation
    && (if h == 0 then s !in w.leases else s in w.leases && w.leases[s].generation == h && w.leases[s].expiresAt < t)
  }

  lemma ClimbsFromNone(keccak: Keccak, w: World, s: string, raw: string, k: nat, c: Call, t: nat)
    requires Waits(keccak, w, s, raw, k, c) && OpenFor(w, s) && s !in w.leases
    ensures Climbs(keccak, w, s, raw, k, c, 0, t)
  {
    hide Waits, OpenFor;
  }

  lemma FreshNumber(taken: set<nat>) returns (n: nat)
    ensures forall m :: m in taken ==> m < n
    decreases |taken|
  {
    if taken == {} {
      n := 0;
    } else {
      var x :| x in taken;
      var rest := FreshNumber(taken - {x});
      n := if x < rest then rest else x + 1;
      assert forall m :: m in taken ==> m == x || m in taken - {x};
    }
  }

  /// The next command gets the next generation, and falls asleep over the stored bytes.
  function Taken(w: World, n: nat, s: string, h: nat, t: nat): World
    requires s in w.records
  {
    var record := w.records[s];
    var c := NewCall(w, s, h + 1, t);
    Installed(w, n, s, NewLease(h + 1, t),
              c.(phase := if record.rpcTxHash.Some? then AtConfirm(record, record.rpcTxHash.value, ByHash) else AtSend(record, ByRaw)))
  }

  lemma NextIsNext(w: World, s: string, h: nat, t: nat)
    requires w.leases.Keys == w.inFlight && h < U64_MAX
    requires if h == 0 then s !in w.leases else s in w.leases && w.leases[s].generation == h && w.leases[s].expiresAt < t
    ensures NextGeneration(w, s, t) == Some(h + 1)
  {
  }

  lemma ClimbParts(keccak: Keccak, w: World, s: string, raw: string, k: nat, c: Call, h: nat, t: nat)
    requires Climbs(keccak, w, s, raw, k, c, h, t)
    ensures Sound(w) && w.leases.Keys == w.inFlight && Tidy(keccak, w) && HasBytes(w, s, raw) && OpenFor(w, s)
    ensures CheckRaw(keccak, w.records[s]).Ok? && h <= c.generation <= U64_MAX && 1 <= c.generation
    ensures if h == 0 then s !in w.leases else s in w.leases && w.leases[s].generation == h && w.leases[s].expiresAt < t
    ensures h == c.generation ==> Armed(w, k, s, raw)
  {
    hide Tidy, PhaseTidy, Carries, OpenFor, FactoryRuns.Safe, CallsOk, NoncesOk, AllRefundedOk, CheckRaw, Paying, Settled;
    TidyParts(keccak, w, k);
    StoredPasses(keccak, w, s, raw);
  }

  lemma TakesLease(keccak: Keccak, w: World, n: nat, s: string, raw: string, h: nat, t: nat)
    requires HasBytes(w, s, raw) && CheckRaw(keccak, w.records[s]).Ok? && OpenFor(w, s) && n !in w.calls
    requires NextGeneration(w, s, t) == Some(h + 1)
    ensures Acquire(keccak, w, n, s, t) == Taken(w, n, s, h, t)
  {
    hide Acquire, Begin, ValidateRefund, NextGeneration, CheckRaw, RefundReuse.Refundable, Factory.ApplyEvent;
    RefundReuse.Opens(keccak, w, n, s, t);
    RefundReuse.StillRefundable(w.st, s, t);
    FallsAsleep(keccak, Installed(w, n, s, NewLease(h + 1, t), NewCall(w, s, h + 1, t)), n);
    assert w.calls[n := NewCall(w, s, h + 1, t)][n := Taken(w, n, s, h, t).calls[n]] == Taken(w, n, s, h, t).calls;
  }

  lemma FallsAsleep(keccak: Keccak, w: World, n: nat)
    requires n in w.calls && w.calls[n].session in w.records && CheckRaw(keccak, w.records[w.calls[n].session]).Ok?
    requires ValidateRefund(w.st, w.calls[n].session, w.calls[n].now).Allowed?
    ensures var c := w.calls[n];
      var record := w.records[c.session];
      Begin(keccak, w, n)
      == Waiting(w, n, c.(phase := if record.rpcTxHash.Some? then AtConfirm(record, record.rpcTxHash.value, ByHash) else AtSend(record, ByRaw)))
  {
    hide ValidateRefund, CheckRaw, Reconstruct;
    ChecksNeedHash(keccak, w.records[w.calls[n].session]);
    ChecksNeedBytes(keccak, w.records[w.calls[n].session]);
  }

  lemma ChecksNeedBytes(keccak: Keccak, r: Record)
    requires CheckRaw(keccak, r).Ok?
    ensures r.rawHex.Some?
  {
    hide Decoded, KeccakHex;
  }

  lemma TakenClimbs(keccak: Keccak, w: World, n: nat, s: string, raw: string, k: nat, c: Call, h: nat, t: nat)
    requires Climbs(keccak, w, s, raw, k, c, h, t) && h < c.generation && n !in w.calls
    requires Sound(Taken(w, n, s, h, t)) && Tidy(keccak, Taken(w, n, s, h, t))
    ensures Climbs(keccak, Taken(w, n, s, h, t), s, raw, k, c, h + 1, t + REFUND_COMMAND_LEASE_MS + 1)
  {
    hide Sound, Tidy, Carries, RefundReuse.Refundable;
  }

  lemma TakenIsNext(keccak: Keccak, w: World, n: nat, s: string, raw: string, k: nat, c: Call, h: nat, t: nat)
    requires Climbs(keccak, w, s, raw, k, c, h, t) && h < c.generation && n !in w.calls
    ensures Enabled(w, Command(n, s, t)) && s in w.records && After(keccak, w, Command(n, s, t)) == Taken(w, n, s, h, t)
    ensures Climbs(keccak, Taken(w, n, s, h, t), s, raw, k, c, h + 1, t + REFUND_COMMAND_LEASE_MS + 1)
  {
    hide Climbs, Sound, Tidy, Acquire, Taken, CheckRaw, NextGeneration, OpenFor, Keeps, Armed;
    ClimbParts(keccak, w, s, raw, k, c, h, t);
    NextIsNext(w, s, h, t);
    TakesLease(keccak, w, n, s, raw, h, t);
    StepKeeps(keccak, w, Command(n, s, t));
    StepTidy(keccak, w, Command(n, s, t));
    TakenClimbs(keccak, w, n, s, raw, k, c, h, t);
  }

  /// Command after command, until the call has the lease.
  lemma {:induction false} Climb(keccak: Keccak, w: World, s: string, raw: string, k: nat, c: Call, h: nat, t: nat)
    requires Climbs(keccak, w, s, raw, k, c, h, t)
    ensures CanLose(keccak, w, s, raw, t)
    decreases c.generation - h
  {
    hide Climbs, Sound, Tidy, CanLose, Taken, CheckRaw, OpenFor, After, Enabled, Armed, HasBytes;
    ClimbParts(keccak, w, s, raw, k, c, h, t);
    if h == c.generation {
      ArmedLoses(keccak, w, k, s, raw, t);
    } else {
      var n := FreshNumber(w.calls.Keys);
      assert n !in w.calls;
      var next := t + REFUND_COMMAND_LEASE_MS + 1;
      TakenIsNext(keccak, w, n, s, raw, k, c, h, t);
      Climb(keccak, Taken(w, n, s, h, t), s, raw, k, c, h + 1, next);
      LosesSooner(keccak, Taken(w, n, s, h, t), s, raw, t, next);
      LosesLater(keccak, w, Command(n, s, t), s, raw, t);
    }
  }

  // ---------------------------------------------------------------- opening the session

  /// Once its time is up, an unsettled session that had a refund begun expires, and stays refundable.
  function Expiry(s: string, now: nat): Step {
    Elsewhere(FactoryRuns.Signal(s, Factory.System, now, Factory.SessionExpired, ""))
  }

  lemma ExpiryOpens(keccak: Keccak, w: World, s: string, now: nat)
    requires Sound(w) && !Settled(w, s) && Paying(w.st, s) && now > w.st.sessions[s].expiresAt
    ensures Enabled(w, Expiry(s, now)) && TimeOf(Expiry(s, now)) == Some(now)
    ensures var v := After(keccak, w, Expiry(s, now));
      OpenFor(v, s) && v == w.(st := v.st)
  {
    hide FactoryRuns.Safe, CallsOk, NoncesOk, AllRefundedOk, FactoryRuns.After;
    var v := After(keccak, w, Expiry(s, now));
    FactoryRuns.StepKeepsSafe(w.st, Expiry(s, now).step);
    FactoryRuns.StepForward(w.st, Expiry(s, now).step);
    ExpiryState(w.st, s, now);
    SafeIsOpen(w, v, s);
  }

  lemma ExpiryState(st: Factory.State, s: string, now: nat)
    requires s in st.sessions && st.sessions[s].state != Factory.Complete && st.sessions[s].payment != Factory.Refunded
    requires now > st.sessions[s].expiresAt
    ensures var after := Factory.ApplyEvent(st, s, Factory.System, now, Factory.SessionExpired, "").state;
      s in after.sessions && after.sessions[s].state == Factory.Expired && after.sessions[s].payment == st.sessions[s].payment
    ensures FactoryRuns.After(st, FactoryRuns.Signal(s, Factory.System, now, Factory.SessionExpired, ""))
      == Factory.ApplyEvent(st, s, Factory.System, now, Factory.SessionExpired, "").state
  {
    hide Factory.ApplyEvent, FactoryRuns.After;
    SignalIsEvent(st, s, now);
    ExpiredMove(st, s, now);
  }

  lemma SignalIsEvent(st: Factory.State, s: string, now: nat)
    ensures FactoryRuns.After(st, FactoryRuns.Signal(s, Factory.System, now, Factory.SessionExpired, ""))
      == Factory.ApplyEvent(st, s, Factory.System, now, Factory.SessionExpired, "").state
  {
    hide Factory.ApplyEvent;
  }

  lemma ExpiredMove(st: Factory.State, s: string, now: nat)
    requires s in st.sessions && st.sessions[s].state != Factory.Complete && st.sessions[s].payment != Factory.Refunded
    requires now > st.sessions[s].expiresAt
    ensures var after := Factory.ApplyEvent(st, s, Factory.System, now, Factory.SessionExpired, "").state;
      s in after.sessions && after.sessions[s].state == Factory.Expired && after.sessions[s].payment == st.sessions[s].payment
  {
    hide Factory.LastEntries;
  }

  lemma SafeIsOpen(w: World, v: World, s: string)
    requires FactoryRuns.Safe(v.st) && Paying(w.st, s) && w.st.sessions[s].payment != Factory.Refunded
    requires s in v.st.sessions && v.st.sessions[s].state == Factory.Expired && v.st.sessions[s].payment == w.st.sessions[s].payment
    ensures OpenFor(v, s)
  {
    assert Invariants.SessionOk(v.st, s);
  }

  lemma PayingOf(keccak: Keccak, w: World, s: string, raw: string)
    requires Tidy(keccak, w) && HasBytes(w, s, raw)
    ensures Paying(w.st, s)
  {
    assert DraftOk(keccak, w, s);
    hide ValidateDraft;
  }

  lemma OpenLoses(keccak: Keccak, w: World, s: string, raw: string, k: nat, c: Call, since: nat)
    requires Waits(keccak, w, s, raw, k, c) && OpenFor(w, s)
    ensures CanLose(keccak, w, s, raw, since)
  {
    hide Sound, Tidy, Carries, OpenFor, CanLose, Settled, Climbs;
    if s !in w.leases {
      ClimbsFromNone(keccak, w, s, raw, k, c, since);
      Climb(keccak, w, s, raw, k, c, 0, since);
    } else if Holds(w, c) {
      ArmedLoses(keccak, w, k, s, raw, since);
    } else {
      LeaseReturned(keccak, w, s, raw, k, c, since);
    }
  }

  lemma ThreatLoses(keccak: Keccak, w: World, s: string, raw: string, k: nat, since: nat)
    requires Sound(w) && Tidy(keccak, w) && HasBytes(w, s, raw) && k in w.calls && Threatens(w, s, raw, w.calls[k])
    ensures CanLose(keccak, w, s, raw, since)
  {
    hide Sound, Tidy, Carries, OpenFor, CanLose, Settled, After, Enabled, Keeps;
    if Holds(w, w.calls[k]) {
      ArmedLoses(keccak, w, k, s, raw, since);
    } else {
      PayingOf(keccak, w, s, raw);
      var now := if since > w.st.sessions[s].expiresAt then since else w.st.sessions[s].expiresAt + 1;
      ExpiryOpens(keccak, w, s, now);
      var step := Expiry(s, now);
      var v := After(keccak, w, step);
      StepKeeps(keccak, w, step);
      StepTidy(keccak, w, step);
      OpenIsUnsettled(v, s);
      OpenLoses(keccak, v, s, raw, k, w.calls[k], now);
      LosesLater(keccak, w, step, s, raw, since);
    }
  }

  lemma OpenIsUnsettled(v: World, s: string)
    requires OpenFor(v, s)
    ensures !Settled(v, s)
  {
  }

  // ---------------------------------------------------------------- the main result

  lemma SecureNeverLoses(keccak: Keccak, w: World, v: World, s: string, raw: string)
    requires Sound(w) && Tidy(keccak, w) && Secure(w, s, raw) && Reaches(keccak, w, v)
    ensures HasBytes(v, s, raw)
  {
    hide Sound, Tidy, Threatens;
    var steps :| CanRun(keccak, w, steps) && Run(keccak, w, steps) == v;
    EveryRunIsSecure(keccak, w, steps, s, raw);
  }

  lemma TimedIsReached(keccak: Keccak, w: World, v: World, since: nat)
    requires ReachesBy(keccak, w, v, since)
    ensures Reaches(keccak, w, v)
  {
    hide CanRun, Run, Clocked;
  }

  /// Main result. Every run keeps the stored signed bytes exactly when no call in flight for the
  /// session works without them and has the lease, or may yet be given it; and a run that loses them
  /// can be had with a clock that does not run backwards, from any time on.
  lemma BytesAreKeptExactly(keccak: Keccak, w: World, s: string, raw: string, since: nat)
    requires Sound(w) && Tidy(keccak, w) && HasBytes(w, s, raw)
    ensures (forall v :: Reaches(keccak, w, v) ==> HasBytes(v, s, raw))
      <==> (forall id :: id in w.calls ==> !Threatens(w, s, raw, w.calls[id]))
    ensures (forall v :: ReachesBy(keccak, w, v, since) ==> HasBytes(v, s, raw))
      <==> (forall id :: id in w.calls ==> !Threatens(w, s, raw, w.calls[id]))
  {
    hide Sound, Tidy, Threatens, HasBytes, Reaches, ReachesBy;
    if k :| k in w.calls && Threatens(w, s, raw, w.calls[k]) {
      ThreatLoses(keccak, w, s, raw, k, since);
      var v :| ReachesBy(keccak, w, v, since) && !HasBytes(v, s, raw);
      TimedIsReached(keccak, w, v, since);
    } else {
      forall v | Reaches(keccak, w, v) ensures HasBytes(v, s, raw) {
        SecureNeverLoses(keccak, w, v, s, raw);
      }
      forall v | ReachesBy(keccak, w, v, since) ensures HasBytes(v, s, raw) {
        TimedIsReached(keccak, w, v, since);
      }
    }
  }

  /// The same for every world a run leads to from before the first refund.
  lemma ReachableBytesAreKeptExactly(keccak: Keccak, st: Factory.State, stewards: map<string, string>, escrow: string,
                                     config: Config, nextNonce: Option<u64>, before: seq<Step>, s: string, raw: string)
    requires FactoryRuns.Safe(st) && forall o :: o in st.sessions ==> st.sessions[o].payment != Factory.Refunded
    requires CanRun(keccak, Start(st, stewards, escrow, config, nextNonce), before)
    requires HasBytes(Run(keccak, Start(st, stewards, escrow, config, nextNonce), before), s, raw)
    ensures var w := Run(keccak, Start(st, stewards, escrow, config, nextNonce), before);
      (forall v :: Reaches(keccak, w, v) ==> HasBytes(v, s, raw))
      <==> (forall id :: id in w.calls ==> !Threatens(w, s, raw, w.calls[id]))
  {
    hide Sound, Tidy, Threatens, HasBytes, Reaches, FactoryRuns.Safe, CanRun, Run;
    var start := Start(st, stewards, escrow, config, nextNonce);
    StartIsOk(st, stewards, escrow, config, nextNonce);
    StartIsTidy(keccak, st, stewards, escrow, config, nextNonce);
    EveryRunIsTidy(keccak, start, before);
    BytesAreKeptExactly(keccak, Run(keccak, start, before), s, raw, 0);
  }
}
