/// What an execution does when nothing stops it, message by message: a paid session is spawned and its
/// release is sent; from there a recorded release is reached, and a retry after a lost answer sends a
/// second one (backend/factory/src/spawn.rs, backend/factory/src/retry.rs).
module ReleaseReach {
  import opened Factory
  import FactoryRuns
  import FirstPayment
  import opened Limits
  import opened Options
  import Polling
  import opened RefundDraft
  import Refund
  import opened Release
  import opened ReleaseLocal
  import opened ReleaseRuns
  import opened ReleaseSafety
  import opened ReleaseTwins
  import Settings

  // ---------------------------------------------------------------- one event

  /// A move as the session sees it.
  lemma MovesTo(st: State, s: string, now: nat, event: Event, reason: string, target: SessionState)
    requires s in st.sessions && EdgeOf(st.sessions[s], s in st.audit && st.audit[s] != [], now, event)
      == Ok(Move(Some(st.sessions[s].state), target, event == RetryRequested))
    ensures var outcome := ApplyEvent(st, s, System, now, event, reason);
      outcome.error.None? && s in outcome.state.sessions && outcome.state.ttl == st.ttl && outcome.state.depth == st.depth
      && outcome.state.sessions[s]
         == WithFlags(st.sessions[s].(state := target, updatedAt := now,
                                      expiresAt := if event == RetryRequested then now + st.ttl else st.sessions[s].expiresAt), now)
  {
    hide EdgeOf, WithFlags, LastEntries;
  }

  /// A paid session in a given state, with its deadline.
  predicate PaidIn(st: State, s: string, state: SessionState, deadline: nat) {
    s in st.sessions && st.sessions[s].state == state && st.sessions[s].payment == Paid && st.sessions[s].expiresAt == deadline
  }

  lemma Started(st: State, s: string, now: nat, deadline: nat)
    requires PaidIn(st, s, PaymentDetected, deadline)
    ensures var after := ApplyEvent(st, s, System, now, SpawnStarted, "spawn execution started").state;
      PaidIn(after, s, Spawning, deadline) && after.ttl == st.ttl
  {
    hide ApplyEvent;
    MovesTo(st, s, now, SpawnStarted, "spawn execution started", Spawning);
  }

  lemma InstalledOnce(st: State, s: string, canister: string, now: nat, deadline: nat)
    requires PaidIn(st, s, Spawning, deadline)
    ensures var outcome := ApplyEvent(FactoryRuns.Attach(st, s, canister), s, System, now, InstallSucceeded, "automaton installed");
      outcome.error.None? && PaidIn(outcome.state, s, BroadcastingRelease, deadline) && outcome.state.ttl == st.ttl
      && outcome.state.sessions[s].automaton == Some(canister)
  {
    hide ApplyEvent;
    MovesTo(FactoryRuns.Attach(st, s, canister), s, now, InstallSucceeded, "automaton installed", BroadcastingRelease);
  }

  lemma FailedInTime(st: State, s: string, now: nat, deadline: nat)
    requires PaidIn(st, s, BroadcastingRelease, deadline) && now <= deadline
    ensures var after := FactoryRuns.Fail(st, s, System, now, "spawn failed").state;
      PaidIn(after, s, SessionState.Failed, deadline) && after.sessions[s].retryable && after.ttl == st.ttl
  {
    hide ApplyEvent;
    MovesTo(st, s, now, SpawnFailed, "spawn failed", SessionState.Failed);
    var failed := ApplyEvent(st, s, System, now, SpawnFailed, "spawn failed").state;
    Polling.EnqueueSame(failed, s, now);
  }

  lemma RetriedSoon(st: State, s: string, now: nat, deadline: nat)
    requires PaidIn(st, s, SessionState.Failed, deadline) && st.sessions[s].retryable
    ensures var after := FactoryRuns.After(st, FactoryRuns.RetrySession(s, System, now, ""));
      PaidIn(after, s, PaymentDetected, now + st.ttl)
  {
    hide ApplyEvent;
    MovesTo(st, s, now, RetryRequested, "", PaymentDetected);
    Polling.EnqueueSame(ApplyEvent(st, s, System, now, RetryRequested, "").state, s, now);
  }

  // ---------------------------------------------------------------- one execution

  /// A session ready to be spawned whose release is not on record; the canister is its own or nobody's.
  predicate Ready(w: World, s: string, canister: string, deadline: nat) {
    PaidIn(w.st, s, PaymentDetected, deadline) && !HasHash(RecordOf(w, s)) && (canister in w.owner ==> w.owner[canister] == s)
  }

  /// Execution `id` on its way, in the world it started from but for its own traces.
  predicate OnTheWay(w: World, v: World, s: string, id: nat, canister: string, now: nat, state: SessionState, deadline: nat) {
    PaidIn(v.st, s, state, deadline) && v.st.ttl == w.st.ttl && v.records == w.records && (canister in v.owner ==> v.owner[canister] == s)
    && id in v.execs && v.execs[id].session == s && v.execs[id].snapshot == RecordOf(w, s) && v.execs[id].now == now
    && v.execs[id].depth == w.st.depth
    && !HasHash(RecordOf(w, s)) && v.execs - {id} == w.execs
  }

  lemma StepStarts(w: World, s: string, id: nat, canister: string, now: nat, deadline: nat)
    requires Ready(w, s, canister, deadline) && id !in w.execs
    ensures var v := Begin(w, id, s, now, true);
      Goes(w, Execute(id, s, now, true), v) && OnTheWay(w, v, s, id, canister, now, Spawning, deadline)
      && v.execs[id].phase.Creating? && v.sent == w.sent
  {
    hide ApplyEvent, HasHash;
    Started(w.st, s, now, deadline);
    assert w.execs[id := Starting(w, s, now)] - {id} == w.execs;
  }

  lemma StepInstalls(w: World, u: World, s: string, id: nat, canister: string, now: nat, deadline: nat)
    requires OnTheWay(w, u, s, id, canister, now, Spawning, deadline) && u.execs[id].phase.Creating?
    ensures var v := Resume(u, id, Installed(canister));
      Goes(u, Continue(id, Installed(canister)), v) && OnTheWay(w, v, s, id, canister, now, BroadcastingRelease, deadline)
      && v.execs[id].phase.Preparing? && v.execs[id].canister == canister && v.sent == u.sent
      && v.st.sessions[s].automaton == Some(canister)
  {
    hide ApplyEvent, HasHash, FactoryRuns.Attach;
    InstalledOnce(u.st, s, canister, u.execs[id].now, deadline);
    var e := u.execs[id].(canister := canister, phase := Preparing);
    assert u.execs[id := e] - {id} == u.execs - {id};
  }

  lemma StepHandsOver(w: World, u: World, s: string, id: nat, canister: string, now: nat, deadline: nat, controllers: seq<string>)
    requires OnTheWay(w, u, s, id, canister, now, BroadcastingRelease, deadline) && u.execs[id].phase.Preparing?
    ensures var v := Resume(u, id, HandedOver(controllers));
      Goes(u, Continue(id, HandedOver(controllers)), v) && OnTheWay(w, v, s, id, canister, now, BroadcastingRelease, deadline)
      && v.execs[id].phase.AtReserve? && v.sent == u.sent && v.st == u.st
      && v.execs[id].controllers == controllers && v.execs[id].canister == u.execs[id].canister
      && v.handoffs == u.handoffs + {(u.execs[id].canister, controllers)}
  {
    hide HasHash, PaidIn;
    var e := u.execs[id].(controllers := controllers, phase := AtReserve);
    assert u.execs[id := e] - {id} == u.execs - {id};
  }

  lemma StillGuarded(w: World, u: World, s: string, id: nat, canister: string, now: nat, deadline: nat)
    requires OnTheWay(w, u, s, id, canister, now, BroadcastingRelease, deadline)
    ensures Guarded(u, u.execs[id])
  {
    hide IdentityOf, HasHash;
  }

  /// The messages that only move the execution on.
  lemma StepPhase(w: World, u: World, s: string, id: nat, canister: string, now: nat, deadline: nat, phase: Phase)
    requires OnTheWay(w, u, s, id, canister, now, BroadcastingRelease, deadline)
    ensures OnTheWay(w, Waiting(u, id, u.execs[id], phase), s, id, canister, now, BroadcastingRelease, deadline)
  {
    hide HasHash, PaidIn;
    var e := u.execs[id].(phase := phase);
    assert u.execs[id := e] - {id} == u.execs - {id};
  }

  lemma StepPlans(w: World, u: World, s: string, id: nat, canister: string, now: nat, deadline: nat, plan: Record)
    requires OnTheWay(w, u, s, id, canister, now, BroadcastingRelease, deadline) && u.execs[id].phase.AtReserve?
    ensures var v := Waiting(u, id, u.execs[id], AtKey(plan.(rpcTxHash := None)));
      Goes(u, Continue(id, Planned(plan)), v) && OnTheWay(w, v, s, id, canister, now, BroadcastingRelease, deadline)
  {
    hide OnTheWay, Guarded, FailSpawn;
    OwnExec(w, u, s, id, canister, now, BroadcastingRelease, deadline);
    StillGuarded(w, u, s, id, canister, now, deadline);
    StepPhase(w, u, s, id, canister, now, deadline, AtKey(plan.(rpcTxHash := None)));
  }

  lemma OwnExec(w: World, u: World, s: string, id: nat, canister: string, now: nat, state: SessionState, deadline: nat)
    requires OnTheWay(w, u, s, id, canister, now, state, deadline)
    ensures id in u.execs && u.execs[id].session == s
  {
  }

  lemma StepKeys(w: World, u: World, s: string, id: nat, canister: string, now: nat, deadline: nat, plan: Record)
    requires OnTheWay(w, u, s, id, canister, now, BroadcastingRelease, deadline) && u.execs[id].phase == AtKey(plan)
    ensures var v := Waiting(u, id, u.execs[id], AtSign(plan));
      Goes(u, Continue(id, KeyFound), v) && OnTheWay(w, v, s, id, canister, now, BroadcastingRelease, deadline)
  {
    hide OnTheWay, Guarded, BroadcastError;
    OwnExec(w, u, s, id, canister, now, BroadcastingRelease, deadline);
    StillGuarded(w, u, s, id, canister, now, deadline);
    StepPhase(w, u, s, id, canister, now, deadline, AtSign(plan));
  }

  function SignedRecord(plan: Record, signature: RefundDraft.Signature, rawHash: string, rawHex: string): Record {
    plan.(signature := Some(signature), rawHash := Some(rawHash), rawHex := Some(rawHex))
  }

  lemma StepSends(w: World, u: World, s: string, id: nat, canister: string, now: nat, deadline: nat, plan: Record,
                  signature: RefundDraft.Signature, rawHash: string, rawHex: string)
    requires OnTheWay(w, u, s, id, canister, now, BroadcastingRelease, deadline) && u.execs[id].phase == AtSign(plan)
    ensures var v := Resume(u, id, Answer.Signature(signature, rawHash, rawHex));
      Goes(u, Continue(id, Answer.Signature(signature, rawHash, rawHex)), v)
      && OnTheWay(w, v, s, id, canister, now, BroadcastingRelease, deadline)
      && v == Waiting(u, id, u.execs[id], AtSend(SignedRecord(plan, signature, rawHash, rawHex))).(sent := u.sent + [(s, rawHash)])
  {
    hide OnTheWay, Guarded, BroadcastError;
    OwnExec(w, u, s, id, canister, now, BroadcastingRelease, deadline);
    StillGuarded(w, u, s, id, canister, now, deadline);
    StepPhase(w, u, s, id, canister, now, deadline, AtSend(SignedRecord(plan, signature, rawHash, rawHex)));
    SentIsBeside(w, Waiting(u, id, u.execs[id], AtSend(SignedRecord(plan, signature, rawHash, rawHex))), u.sent + [(s, rawHash)],
                 s, id, canister, now, deadline);
  }

  lemma SentIsBeside(w: World, u: World, sent: seq<(string, string)>, s: string, id: nat, canister: string, now: nat, deadline: nat)
    requires OnTheWay(w, u, s, id, canister, now, BroadcastingRelease, deadline)
    ensures OnTheWay(w, u.(sent := sent), s, id, canister, now, BroadcastingRelease, deadline)
  {
    hide HasHash, PaidIn;
  }

  /// What one execution is given on its way to the broadcast.
  datatype Inputs = Inputs(
    canister: string, controllers: seq<string>, plan: Record, signature: RefundDraft.Signature, rawHash: string, rawHex: string)

  /// The record an execution sends.
  function SentRecord(i: Inputs): Record {
    SignedRecord(i.plan.(rpcTxHash := None), i.signature, i.rawHash, i.rawHex)
  }

  /// From a paid session to the broadcast of its release.
  lemma SixMessages(w: World, s: string, id: nat, now: nat, deadline: nat, i: Inputs) returns (v: World)
    requires Ready(w, s, i.canister, deadline) && id !in w.execs
    ensures Reaches(w, v) && OnTheWay(w, v, s, id, i.canister, now, BroadcastingRelease, deadline)
    ensures v.execs[id].phase == AtSend(SentRecord(i)) && v.sent == w.sent + [(s, i.rawHash)]
    ensures v.execs[id].canister == i.canister && v.execs[id].controllers == i.controllers
    ensures (i.canister, i.controllers) in v.handoffs && v.st.sessions[s].automaton == Some(i.canister)
  {
    hide Ready, OnTheWay, Goes, Reaches, Resume, Begin;
    var c := i.canister;
    StepStarts(w, s, id, c, now, deadline);
    var a := Begin(w, id, s, now, true);
    OwnExec(w, a, s, id, c, now, Spawning, deadline);
    StepInstalls(w, a, s, id, c, now, deadline);
    var b := Resume(a, id, Installed(c));
    OwnExec(w, b, s, id, c, now, BroadcastingRelease, deadline);
    StepHandsOver(w, b, s, id, c, now, deadline, i.controllers);
    var d := Resume(b, id, HandedOver(i.controllers));
    var plan := i.plan.(rpcTxHash := None);
    OwnExec(w, d, s, id, c, now, BroadcastingRelease, deadline);
    StepPlans(w, d, s, id, c, now, deadline, i.plan);
    var f := Waiting(d, id, d.execs[id], AtKey(plan));
    StepKeys(w, f, s, id, c, now, deadline, plan);
    var g := Waiting(f, id, f.execs[id], AtSign(plan));
    var answer := Answer.Signature(i.signature, i.rawHash, i.rawHex);
    StepSends(w, g, s, id, c, now, deadline, plan, i.signature, i.rawHash, i.rawHex);
    v := Resume(g, id, answer);
    ReachesOne(g, Continue(id, answer), v);
    ReachesFirst(f, Continue(id, KeyFound), g, v);
    ReachesFirst(d, Continue(id, Planned(i.plan)), f, v);
    ReachesFirst(b, Continue(id, HandedOver(i.controllers)), d, v);
    ReachesFirst(a, Continue(id, Installed(c)), b, v);
    ReachesFirst(w, Execute(id, s, now, true), a, v);
  }

  // ---------------------------------------------------------------- a release on record

  /// The answer with a hash is stored as soon as one question for the receipt has failed.
  lemma RecordedSteps(w: World, u: World, s: string, id: nat, canister: string, now: nat, deadline: nat, record: Record, text: string)
    returns (v: World)
    requires OnTheWay(w, u, s, id, canister, now, BroadcastingRelease, deadline) && u.execs[id].phase == AtSend(record)
    ensures Reaches(u, v) && Confirming(v, s) && HashOf(v, s) == Some(text) && v.sent == u.sent && v.execs == w.execs
  {
    hide OnTheWay, Guarded, FailSpawn, Goes, Reaches, BroadcastError;
    OwnExec(w, u, s, id, canister, now, BroadcastingRelease, deadline);
    StillGuarded(w, u, s, id, canister, now, deadline);
    var known := record.(rpcTxHash := Some(text), broadcastAt := Some(u.execs[id].now));
    var a := Waiting(u, id, u.execs[id], AtConfirm(known, text));
    StepPhase(w, u, s, id, canister, now, deadline, AtConfirm(known, text));
    HashArrives(u, id, record, text);
    StillGuarded(w, a, s, id, canister, now, deadline);
    ReceiptFails(a, id, known, text);
    v := BroadcastError(a, id, a.execs[id], known, true);
    KeptIsConfirming(w, a, s, id, canister, now, deadline, known, text);
    ReachesOne(a, Continue(id, Receipts(Refund.Failed)), v);
    ReachesFirst(u, Continue(id, Hash(text)), a, v);
  }

  lemma HashArrives(u: World, id: nat, record: Record, text: string)
    requires id in u.execs && u.execs[id].phase == AtSend(record) && Guarded(u, u.execs[id])
    ensures Goes(u, Continue(id, Hash(text)),
                 Waiting(u, id, u.execs[id], AtConfirm(record.(rpcTxHash := Some(text), broadcastAt := Some(u.execs[id].now)), text)))
  {
    hide Guarded, BroadcastError;
  }

  lemma ReceiptFails(u: World, id: nat, record: Record, hash: string)
    requires id in u.execs && u.execs[id].phase == AtConfirm(record, hash) && Guarded(u, u.execs[id])
    ensures Goes(u, Continue(id, Receipts(Refund.Failed)), BroadcastError(u, id, u.execs[id], record, true))
  {
    hide Guarded, BroadcastError;
  }

  lemma KeptIsConfirming(w: World, u: World, s: string, id: nat, canister: string, now: nat, deadline: nat, record: Record, text: string)
    requires OnTheWay(w, u, s, id, canister, now, BroadcastingRelease, deadline) && record.rpcTxHash == Some(text)
    ensures var v := BroadcastError(u, id, u.execs[id], record, true);
      Confirming(v, s) && HashOf(v, s) == Some(text) && v.sent == u.sent && v.execs == w.execs
  {
    hide FailSpawn;
  }

  // ---------------------------------------------------------------- from the start

  lemma LiftedGoes(w: World, step: FactoryRuns.Step)
    requires FactoryRuns.Enabled(w.st, step) && OthersStep(step)
    ensures Goes(w, Elsewhere(step), w.(st := FactoryRuns.After(w.st, step)))
  {
    hide FactoryRuns.After, FactoryRuns.Enabled;
  }

  /// A session whose price was deposited is ready to be spawned, in an otherwise empty world.
  lemma ReadyFromTheStart(ttl: nat, depth: nat, s: string, claimId: string, gross: nat, minimum: nat, hash: string, now: nat, canister: string)
    returns (w: World)
    requires 1 <= depth <= U64_MAX && minimum <= gross < U128_LIMIT
    ensures Reaches(Start(ttl, depth), w) && Ready(w, s, canister, now + ttl) && w.execs == map[] && w.sent == []
    ensures w.st.depth == depth
  {
    hide FactoryRuns.After, Goes, Reaches, FactoryRuns.CanRun, FactoryRuns.Run, FactoryRuns.Enabled;
    var steps := FirstPayment.FirstSteps(depth, s, claimId, gross, minimum, hash, now, None, 1);
    var start := Start(ttl, depth);
    FirstPayment.DepositIsDetected(ttl, depth, s, claimId, gross, minimum, hash, now, None, 1);
    FirstIsEnabled(ttl, depth, steps);
    FirstPayment.ThreeSteps(start.st, steps);
    var created := start.(st := FactoryRuns.After(start.st, steps[0]));
    var polled := created.(st := FactoryRuns.After(created.st, steps[1]));
    w := polled.(st := FactoryRuns.After(polled.st, steps[2]));
    Settings.SettingsStay(start.st, steps[0]);
    Settings.SettingsStay(created.st, steps[1]);
    Settings.SettingsStay(polled.st, steps[2]);
    LiftedGoes(start, steps[0]);
    LiftedGoes(created, steps[1]);
    LiftedGoes(polled, steps[2]);
    ReachesOne(polled, Elsewhere(steps[2]), w);
    ReachesFirst(created, Elsewhere(steps[1]), polled, w);
    ReachesFirst(start, Elsewhere(steps[0]), created, w);
  }

  lemma FirstIsEnabled(ttl: nat, depth: nat, steps: seq<FactoryRuns.Step>)
    requires |steps| == 3 && steps[0].CreateSession? && steps[1].PollPayments? && steps[2].LeaseJobs?
    ensures FactoryRuns.Enabled(FactoryRuns.Initial(ttl, depth), steps[0])
    ensures forall st :: FactoryRuns.Enabled(st, steps[1]) && FactoryRuns.Enabled(st, steps[2])
  {
  }

  /// For every price, depth, hash and set of answers a run from the start reaches a paid session whose
  /// release is on record and still to be confirmed.
  lemma ConfirmingIsReachable(ttl: nat, depth: nat, s: string, claimId: string, gross: nat, minimum: nat, hash: string, now: nat,
                              i: Inputs, text: string) returns (w: World)
    requires 1 <= depth <= U64_MAX && minimum <= gross < U128_LIMIT
    ensures Reaches(Start(ttl, depth), w) && Sound(w) && Confirming(w, s) && HashOf(w, s) == Some(text) && w.execs == map[]
  {
    hide Reaches, Confirming, Ready, OnTheWay, Sound;
    var ready := ReadyFromTheStart(ttl, depth, s, claimId, gross, minimum, hash, now, i.canister);
    var sending := SixMessages(ready, s, 0, now, now + ttl, i);
    OwnExec(ready, sending, s, 0, i.canister, now, BroadcastingRelease, now + ttl);
    w := RecordedSteps(ready, sending, s, 0, i.canister, now, now + ttl, SentRecord(i), text);
    ReachesThen(Start(ttl, depth), ready, sending);
    ReachesThen(Start(ttl, depth), sending, w);
    ReachedIsSound(ttl, depth, w);
  }

  lemma ReachedIsSound(ttl: nat, depth: nat, w: World)
    requires Reaches(Start(ttl, depth), w)
    ensures Sound(w)
  {
    hide Sound, CanRun, Run, Keeps;
    var steps :| CanRun(Start(ttl, depth), steps) && Run(Start(ttl, depth), steps) == w;
    StartIsSound(ttl, depth);
    EveryRunKeeps(Start(ttl, depth), steps);
  }

  // ---------------------------------------------------------------- a second broadcast

  /// The answer to a broadcast is lost: the session fails without a hash, and may be retried.
  lemma LostAnswer(w: World, u: World, s: string, id: nat, canister: string, now: nat, deadline: nat, record: Record, later: nat)
    returns (v: World)
    requires OnTheWay(w, u, s, id, canister, now, BroadcastingRelease, deadline) && u.execs[id].phase == AtSend(record)
    requires now <= deadline && record.rpcTxHash.None?
    ensures Reaches(u, v) && Ready(v, s, canister, later + w.st.ttl) && v.sent == u.sent && v.execs == w.execs
  {
    hide OnTheWay, Guarded, Goes, Reaches, BroadcastError, Ready, FactoryRuns.After, FactoryRuns.Enabled;
    OwnExec(w, u, s, id, canister, now, BroadcastingRelease, deadline);
    StillGuarded(w, u, s, id, canister, now, deadline);
    var failed := BroadcastError(u, id, u.execs[id], record, false);
    AnswerFails(u, id, record);
    LostIsRetryable(w, u, s, id, canister, now, deadline, record, later);
    var retry := FactoryRuns.RetrySession(s, System, later, "");
    v := failed.(st := FactoryRuns.After(failed.st, retry));
    RetryIsEnabled(failed, s, later);
    LiftedGoes(failed, retry);
    ReachesOne(failed, Elsewhere(retry), v);
    ReachesFirst(u, Continue(id, Answer.Failed), failed, v);
  }

  lemma AnswerFails(u: World, id: nat, record: Record)
    requires id in u.execs && u.execs[id].phase == AtSend(record) && Guarded(u, u.execs[id])
    ensures Goes(u, Continue(id, Answer.Failed), BroadcastError(u, id, u.execs[id], record, false))
  {
    hide Guarded, BroadcastError;
  }

  lemma RetryIsEnabled(w: World, s: string, later: nat)
    ensures FactoryRuns.Enabled(w.st, FactoryRuns.RetrySession(s, System, later, "")) && OthersStep(FactoryRuns.RetrySession(s, System, later, ""))
  {
  }

  lemma LostIsRetryable(w: World, u: World, s: string, id: nat, canister: string, now: nat, deadline: nat, record: Record, later: nat)
    requires OnTheWay(w, u, s, id, canister, now, BroadcastingRelease, deadline) && now <= deadline && record.rpcTxHash.None?
    ensures var failed := BroadcastError(u, id, u.execs[id], record, false);
      failed.sent == u.sent && failed.execs == w.execs
      && Ready(failed.(st := FactoryRuns.After(failed.st, FactoryRuns.RetrySession(s, System, later, ""))), s, canister, later + w.st.ttl)
  {
    hide FactoryRuns.Fail, FactoryRuns.After;
    FailedInTime(u.st, s, now, deadline);
    RetriedSoon(FactoryRuns.Fail(u.st, s, System, now, "spawn failed").state, s, later, deadline);
  }

  /// From the start a run sends two transactions for one session: the answer to the first is lost before
  /// its hash is recorded, and the session is retried.
  lemma TwoSends(ttl: nat, depth: nat, s: string, claimId: string, gross: nat, minimum: nat, hash: string, now: nat, later: nat,
                 i: Inputs, j: Inputs) returns (w: World)
    requires 1 <= depth <= U64_MAX && minimum <= gross < U128_LIMIT && i.canister == j.canister
    ensures Reaches(Start(ttl, depth), w) && Sent(w.sent, s) == [i.rawHash, j.rawHash]
  {
    hide Reaches, Ready, OnTheWay, Sent;
    var ready := ReadyFromTheStart(ttl, depth, s, claimId, gross, minimum, hash, now, i.canister);
    var sending := SixMessages(ready, s, 0, now, now + ttl, i);
    OwnExec(ready, sending, s, 0, i.canister, now, BroadcastingRelease, now + ttl);
    var again := LostAnswer(ready, sending, s, 0, i.canister, now, now + ttl, SentRecord(i), later);
    w := SixMessages(again, s, 0, later, later + ready.st.ttl, j);
    ReachesThen(Start(ttl, depth), ready, sending);
    ReachesThen(Start(ttl, depth), sending, again);
    ReachesThen(Start(ttl, depth), again, w);
    SentTwo(s, i.rawHash, j.rawHash);
  }

  lemma SentTwo(s: string, a: string, b: string)
    ensures Sent([] + [(s, a)] + [(s, b)], s) == [a, b]
  {
    var log := [] + [(s, a)] + [(s, b)];
    assert log == [(s, a), (s, b)] && log[..1] == [(s, a)] && [(s, a)][..0] == [];
    assert Sent([(s, a)], s) == [] + [a];
    assert Sent(log, s) == [a] + [b];
  }
}
