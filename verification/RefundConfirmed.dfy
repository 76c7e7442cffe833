/// Which refunds are recorded: those of a transaction that the node reported successful, canonical
/// and deep enough, to a call that still held its lease (backend/factory/src/evm.rs,
/// backend/factory/src/escrow.rs).
module RefundConfirmed {
  import opened Confirmations
  import opened Escrow
  import opened Evm
  import Factory
  import FactoryRuns
  import Frozen
  import Invariants
  import opened Options
  import opened RefundDraft
  import opened Refund
  import opened RefundRuns
  import opened RefundTidy
  import opened RlpEncoder
  import Settings

  /// A call confirms to the depth that is set.
  ghost predicate DepthsOk(w: World) {
    forall id :: id in w.calls ==> w.calls[id].depth == w.st.depth
  }

  /// Money came in, the session failed or expired, and its canister, if it has one, is known.
  predicate Open(st: Factory.State, s: string) {
    s in st.sessions && st.sessions[s].state in {Factory.Expired, Factory.SessionState.Failed}
    && st.sessions[s].payment in {Factory.Partial, Factory.Paid}
    && (st.sessions[s].automaton.Some? ==> st.sessions[s].automaton.value in st.runtimes)
  }

  /// The answer that a refund is recorded for.
  predicate Refunds(w: World, step: Step, s: string) {
    step.Continue? && step.id in w.calls && w.calls[step.id].session == s && Holds(w, w.calls[step.id])
    && w.calls[step.id].phase.AtConfirm? && Deep(step.answer, w.st.depth) && Open(w.st, s)
  }

  // ---------------------------------------------------------------- what writes a refund

  lemma FinalizeRefunds(st: Factory.State, s: string, now: nat)
    requires FactoryRuns.Safe(st)
    ensures var after := FinalizeRefund(st, s, now).state;
      if Open(st, s)
      then s in after.sessions && after.sessions[s].payment == Factory.Refunded
           && s in after.claims && after.claims[s].refundedAt == Some(now)
      else after == st
  {
    if s in st.sessions {
      assert Invariants.SessionOk(st, s);
    }
  }

  lemma FinalizeOthers(st: Factory.State, s: string, now: nat, o: string)
    requires FactoryRuns.Safe(st) && o != s
    ensures var after := FinalizeRefund(st, s, now).state;
      (o in after.sessions <==> o in st.sessions) && (o in st.sessions ==> after.sessions[o] == st.sessions[o])
  {
    if s in st.sessions {
      assert Invariants.SessionOk(st, s);
      FactoryRuns.RefundEffect(st, s, now);
      hide FinalizeRefund, FactoryRuns.Safe;
    }
  }

  lemma GiveUpState(w: World, id: nat, record: Record, via: Via)
    requires id in w.calls
    ensures GiveUp(w, id, record, via).st == w.st
  {
  }

  lemma SendState(keccak: Keccak, w: World, id: nat, c: Call, record: Record, via: Via)
    requires id in w.calls
    ensures Send(keccak, w, id, c, record, via).st == w.st
  {
    hide CheckRaw, GiveUp;
    GiveUpState(w, id, record, via);
  }

  lemma BeginState(keccak: Keccak, w: World, id: nat)
    requires id in w.calls
    ensures Begin(keccak, w, id).st == w.st
  {
    hide Send, Reconstruct, ValidateRefund;
    var c := w.calls[id];
    if c.session in w.records {
      var record := w.records[c.session];
      SendState(keccak, w, id, c, record, ByRaw);
      if Reconstruct(keccak, record).Ok? {
        var rebuilt := record.(rawHex := Some(Reconstruct(keccak, record).value));
        SendState(keccak, Stored(w, c.session, rebuilt), id, c, rebuilt, ByRaw);
      }
    }
  }

  /// A confirmation that is deep enough, told to a call with its lease.
  predicate Tells(w: World, id: nat, answer: Answer) {
    id in w.calls && Holds(w, w.calls[id]) && w.calls[id].phase.AtConfirm? && Deep(answer, w.calls[id].depth)
  }

  lemma AfterSendState(w: World, id: nat, c: Call, record: Record, via: Via, answer: Answer)
    requires id in w.calls
    ensures AfterSend(w, id, c, record, via, answer).st == w.st
  {
    hide GiveUp;
    GiveUpState(w, id, record, via);
  }

  lemma AfterConfirmState(w: World, id: nat, c: Call, record: Record, via: Via, answer: Answer)
    requires id in w.calls && w.calls[id] == c
    ensures var v := AfterConfirm(w, id, c, record, via, answer);
      if Deep(answer, c.depth)
      then v.st == FinalizeRefund(w.st, c.session, c.now).state && v.records == w.records[c.session := Seen(record, answer)]
      else v.st == w.st
  {
    hide ConfirmDepth, GiveUp, FinalizeRefund, Deep;
    if answer.Confirmation? {
      ConfirmsExactly(record, c.depth, answer);
      GiveUpState(w, id, ConfirmDepth(record, c.depth, answer).0, via);
      if Deep(answer, c.depth) {
        DeepHasReceipt(answer, c.depth);
      }
    } else {
      GiveUpState(w, id, record, via);
      ShallowOtherwise(answer, c.depth);
    }
  }

  lemma ShallowOtherwise(answer: Answer, depth: nat)
    requires !answer.Confirmation?
    ensures !Deep(answer, depth)
  {
  }

  lemma ResumeState(keccak: Keccak, w: World, id: nat, answer: Answer)
    requires id in w.calls
    ensures var c, v := w.calls[id], Resume(keccak, w, id, answer);
      if Tells(w, id, answer)
      then v.st == FinalizeRefund(w.st, c.session, c.now).state && v.records == w.records[c.session := Seen(c.phase.plan, answer)]
      else v.st == w.st
  {
    hide Draft, Send, GiveUp, AfterSend, AfterConfirm, WithSignature, FinalizeRefund, Deep;
    var c := w.calls[id];
    if Holds(w, c) {
      match c.phase
      case AtNonce =>
        if Draft(keccak, w, c, if answer.PendingNonce? then answer.nonce else 0).Some? {
          DraftShape(keccak, w, c, if answer.PendingNonce? then answer.nonce else 0);
        }
      case AtKey(plan) => GiveUpState(w, id, plan, ByBroadcast);
      case AtSign(plan) =>
        GiveUpState(w, id, plan, ByBroadcast);
        if answer.Signed? && answer.yParity.Some? && WithSignature(keccak, plan, answer.yParity.value, answer.signature).Some? {
          var record := WithSignature(keccak, plan, answer.yParity.value, answer.signature).value;
          SendState(keccak, Stored(w, c.session, record), id, c, record, ByBroadcast);
        }
      case AtSend(record, via) => AfterSendState(w, id, c, record, via, answer);
      case AtConfirm(record, hash, via) => AfterConfirmState(w, id, c, record, via, answer);
    }
  }

  // ---------------------------------------------------------------- one step

  lemma ContinueRefunds(keccak: Keccak, w: World, id: nat, answer: Answer, s: string)
    requires Sound(w) && DepthsOk(w) && id in w.calls
    ensures var v := Resume(keccak, w, id, answer);
      (IsRefunded(v, s) <==> IsRefunded(w, s) || Refunds(w, Continue(id, answer), s))
      && (Refunds(w, Continue(id, answer), s) ==>
            s in v.records && v.records[s] == Seen(w.calls[id].phase.plan, answer)
            && s in v.st.claims && v.st.claims[s].refundedAt == Some(w.calls[id].now))
  {
    hide Sound, Resume, FinalizeRefund, Deep, Open, FactoryRuns.Safe;
    var c := w.calls[id];
    OkIsSafe(w);
    ResumeState(keccak, w, id, answer);
    if Tells(w, id, answer) {
      FinalizeRefunds(w.st, c.session, c.now);
      if s != c.session {
        FinalizeOthers(w.st, c.session, c.now, s);
      }
    }
  }

  lemma AcquireRefunds(keccak: Keccak, w: World, id: nat, session: string, now: nat, s: string)
    requires Sound(w)
    ensures IsRefunded(Acquire(keccak, w, id, session, now), s) <==> IsRefunded(w, s)
  {
    hide Sound, Acquire, Begin, Due, Around, Keeps, ValidateRefund, NextGeneration, FactoryRuns.Safe;
    var due := w.(st := Due(w, session, now));
    AcquireCases(keccak, w, id, session, now);
    DueRefunds(w, session, now, s);
    if NextGeneration(w, session, now).Some? {
      var generation := NextGeneration(w, session, now).value;
      BeginState(keccak, Installed(due, id, session, NewLease(generation, now), NewCall(w, session, generation, now)), id);
    }
  }

  lemma DueRefunds(w: World, session: string, now: nat, s: string)
    requires Sound(w)
    ensures IsRefunded(w.(st := Due(w, session, now)), s) <==> IsRefunded(w, s)
  {
    hide Sound, Factory.ApplyEvent, FactoryRuns.Safe;
    OkIsSafe(w);
    ExpiryFacts(w.st, session, now, "refund requested by verified EVM steward");
    SelfRefund(w.st);
    assert Frozen.KeepsRefund(w.st, Due(w, session, now), s);
  }

  lemma ElsewhereRefunds(w: World, e: FactoryRuns.Step, s: string)
    requires Sound(w) && FactoryRuns.Enabled(w.st, e) && !e.RefundSession?
    ensures IsRefunded(w.(st := FactoryRuns.After(w.st, e)), s) <==> IsRefunded(w, s)
  {
    hide Sound, FactoryRuns.After, FactoryRuns.Enabled, FactoryRuns.Safe;
    OkIsSafe(w);
    Frozen.StepKeepsRefund(w.st, e, s);
  }

  /// A step makes a refund exactly when it is such an answer; the record then holds that receipt
  /// and the claim the time of the command.
  lemma StepRefunds(keccak: Keccak, w: World, step: Step, s: string)
    requires Sound(w) && DepthsOk(w) && Enabled(w, step)
    ensures var v := After(keccak, w, step);
      (IsRefunded(v, s) <==> IsRefunded(w, s) || Refunds(w, step, s))
      && (Refunds(w, step, s) ==>
            s in v.records && v.records[s] == Seen(w.calls[step.id].phase.plan, step.answer)
            && s in v.st.claims && v.st.claims[s].refundedAt == Some(w.calls[step.id].now))
  {
    hide Sound, DepthsOk, Acquire, Resume, FactoryRuns.After, FactoryRuns.Enabled, Deep, Open;
    match step
    case Elsewhere(e) => ElsewhereRefunds(w, e, s);
    case Reconfigure(_, _) =>
    case ReleaseNonce(_) =>
    case Command(id, session, now) => AcquireRefunds(keccak, w, id, session, now, s);
    case Continue(id, answer) => ContinueRefunds(keccak, w, id, answer, s);
  }

  // ---------------------------------------------------------------- depths

  lemma CallDepths(w: World, v: World, id: nat)
    requires DepthsOk(w) && id in w.calls && OneCall(w, v, id, w.calls[id]) && v.st.depth == w.st.depth
    ensures DepthsOk(v)
  {
    hide Around;
  }

  lemma FinalizeDepth(st: Factory.State, s: string, now: nat)
    ensures FinalizeRefund(st, s, now).state.depth == st.depth
  {
    Settings.RefundSettings(st, s, now);
    hide FinalizeRefund;
  }

  lemma ResumeDepths(keccak: Keccak, w: World, id: nat, answer: Answer)
    requires Sound(w) && DepthsOk(w) && id in w.calls
    ensures DepthsOk(Resume(keccak, w, id, answer))
  {
    hide Sound, DepthsOk, Resume, FinalizeRefund, Deep, FactoryRuns.Safe, OneCall, Tells;
    OkIsSafe(w);
    ResumeShape(keccak, w, id, answer);
    ResumeState(keccak, w, id, answer);
    FinalizeDepth(w.st, w.calls[id].session, w.calls[id].now);
    CallDepths(w, Resume(keccak, w, id, answer), id);
  }

  lemma DueDepth(w: World, session: string, now: nat)
    ensures Due(w, session, now).depth == w.st.depth
  {
    hide Factory.ApplyEvent;
    Settings.EventSettings(w.st, session, Factory.User, now, Factory.SessionExpired, "refund requested by verified EVM steward");
  }

  lemma AcquireDepths(keccak: Keccak, w: World, id: nat, session: string, now: nat)
    requires DepthsOk(w) && id !in w.calls
    ensures DepthsOk(Acquire(keccak, w, id, session, now))
  {
    hide Acquire, Begin, Due, Around, ValidateRefund, NextGeneration;
    var due := w.(st := Due(w, session, now));
    AcquireCases(keccak, w, id, session, now);
    DueDepth(w, session, now);
    if NextGeneration(w, session, now).Some? {
      var generation := NextGeneration(w, session, now).value;
      var installed := Installed(due, id, session, NewLease(generation, now), NewCall(w, session, generation, now));
      BeginState(keccak, installed, id);
      BeginShape(keccak, installed, id);
      CallDepths(installed, Begin(keccak, installed, id), id);
    }
  }

  lemma StepDepths(keccak: Keccak, w: World, step: Step)
    requires Sound(w) && DepthsOk(w) && Enabled(w, step)
    ensures DepthsOk(After(keccak, w, step))
  {
    hide Sound, Acquire, Resume, FactoryRuns.After, FactoryRuns.Enabled;
    match step
    case Elsewhere(e) => Settings.SettingsStay(w.st, e);
    case Reconfigure(_, _) =>
    case ReleaseNonce(_) =>
    case Command(id, session, now) => AcquireDepths(keccak, w, id, session, now);
    case Continue(id, answer) => ResumeDepths(keccak, w, id, answer);
  }

  // ---------------------------------------------------------------- every run

  /// Somewhere in the run the refund of `s` was answered, and the record then stored was `record`.
  ghost predicate SomeRefunds(keccak: Keccak, w: World, steps: seq<Step>, s: string, record: Record)
    requires CanRun(keccak, w, steps)
    decreases |steps|
  {
    steps != []
    && ((Refunds(w, steps[0], s) && record == Seen(w.calls[steps[0].id].phase.plan, steps[0].answer))
        || SomeRefunds(keccak, After(keccak, w, steps[0]), steps[1..], s, record))
  }

  /// Main result. In every run a session is refunded exactly when some answer told a call with its
  /// lease that the refund is successful, canonical and as deep as set, while the refund was open;
  /// and the record on file is, for ever, the one with that receipt.
  lemma {:induction false} RefundsAreConfirmed(keccak: Keccak, w: World, steps: seq<Step>, s: string, record: Record)
    requires Sound(w) && DepthsOk(w) && CanRun(keccak, w, steps) && !IsRefunded(w, s)
    ensures SomeRefunds(keccak, w, steps, s, record)
      <==> IsRefunded(Run(keccak, w, steps), s) && RecordIs(Run(keccak, w, steps), s, record)
    ensures IsRefunded(Run(keccak, w, steps), s) ==> s in Run(keccak, w, steps).records
    decreases |steps|
  {
    hide Sound, DepthsOk, After, Enabled, Refunds, Keeps;
    if steps != [] {
      var next := After(keccak, w, steps[0]);
      StepRefunds(keccak, w, steps[0], s);
      StepDepths(keccak, w, steps[0]);
      StepKeeps(keccak, w, steps[0]);
      if Refunds(w, steps[0], s) {
        StaysRefunded(keccak, next, steps[1..], s);
        NoSecondRefund(keccak, next, steps[1..], s, record);
      } else {
        RefundsAreConfirmed(keccak, next, steps[1..], s, record);
      }
    }
  }

  predicate RecordIs(w: World, s: string, record: Record) {
    s in w.records && w.records[s] == record
  }

  lemma {:induction false} NoSecondRefund(keccak: Keccak, w: World, steps: seq<Step>, s: string, record: Record)
    requires Sound(w) && CanRun(keccak, w, steps) && IsRefunded(w, s)
    ensures !SomeRefunds(keccak, w, steps, s, record)
    decreases |steps|
  {
    hide Sound, Run, After, Enabled, Deep;
    if steps != [] {
      StepKeeps(keccak, w, steps[0]);
      NoSecondRefund(keccak, After(keccak, w, steps[0]), steps[1..], s, record);
    }
  }

  lemma StaysRefunded(keccak: Keccak, w: World, steps: seq<Step>, s: string)
    requires Sound(w) && CanRun(keccak, w, steps) && IsRefunded(w, s)
    ensures IsRefunded(Run(keccak, w, steps), s) && s in w.records
    ensures s in Run(keccak, w, steps).records && Run(keccak, w, steps).records[s] == w.records[s]
  {
    hide Sound, Run, CanRun;
    EveryRunKeeps(keccak, w, steps);
  }

  lemma StartDepths(st: Factory.State, stewards: map<string, string>, escrow: string, config: Config, nextNonce: Option<u64>)
    ensures DepthsOk(Start(st, stewards, escrow, config, nextNonce))
  {
  }
}
