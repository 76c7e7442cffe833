/// When stored signed bytes cannot be lost: no call of the session could still write anything else.
module RefundSecure {
  import opened Escrow
  import opened Evm
  import Factory
  import FactoryRuns
  import Frozen
  import Hex
  import opened Options
  import opened RefundDraft
  import opened Refund
  import opened RefundRuns
  import opened RefundTidy

  /// The call works on a record with these bytes.
  predicate Carries(c: Call, raw: string) {
    (c.phase.AtSend? || c.phase.AtConfirm?) && c.phase.plan.rawHex == Some(raw)
  }

  /// No refund command of the session can begin any more.
  predicate Settled(w: World, s: string) {
    s in w.st.sessions && (w.st.sessions[s].state == Factory.Complete || w.st.sessions[s].payment == Factory.Refunded)
  }

  /// A call of the session that holds other bytes or none, and has the lease or may be given it:
  /// generations start again from one whenever a lease is returned.
  predicate Threatens(w: World, s: string, raw: string, c: Call) {
    c.session == s && !Carries(c, raw) && (Holds(w, c) || !Settled(w, s))
  }

  predicate HasBytes(w: World, s: string, raw: string) {
    s in w.records && w.records[s].rawHex == Some(raw)
  }

  ghost predicate Secure(w: World, s: string, raw: string) {
    HasBytes(w, s, raw) && forall id :: id in w.calls ==> !Threatens(w, s, raw, w.calls[id])
  }

  lemma SettledStays(w: World, v: World, s: string)
    requires Around(w, v) && Settled(w, s) && FactoryRuns.Safe(w.st)
    ensures Settled(v, s)
  {
    hide FactoryRuns.Safe;
  }

  // ---------------------------------------------------------------- steps beside the session

  /// The session's record and lease are as they were, and its calls are calls it had.
  lemma BesideSecure(w: World, v: World, s: string, raw: string)
    requires FactoryRuns.Safe(w.st) && Secure(w, s, raw) && Around(w, v) && SameRecord(w, v, s)
    requires s in v.leases ==> s in w.leases && v.leases[s] == w.leases[s]
    requires forall o :: o in v.calls && v.calls[o].session == s ==> (o in w.calls && v.calls[o] == w.calls[o]) || Carries(v.calls[o], raw)
    ensures Secure(v, s, raw)
  {
    hide FactoryRuns.Safe, Around, Carries;
    if Settled(w, s) {
      SettledStays(w, v, s);
    }
    forall o | o in v.calls ensures !Threatens(v, s, raw, v.calls[o]) {
      if v.calls[o].session == s && !Carries(v.calls[o], raw) {
        assert !Threatens(w, s, raw, w.calls[o]);
      }
    }
  }

  // ---------------------------------------------------------------- continuing

  /// The holder of the lease works on the stored bytes, and leaves them.
  lemma CarrierKeeps(keccak: Keccak, w: World, id: nat, answer: Answer, raw: string)
    requires id in w.calls && Holds(w, w.calls[id]) && Carries(w.calls[id], raw) && HasBytes(w, w.calls[id].session, raw)
    ensures var v := Resume(keccak, w, id, answer);
      HasBytes(v, w.calls[id].session, raw) && (id in v.calls ==> Carries(v.calls[id], raw))
  {
    hide AfterSend, AfterConfirm;
    if w.calls[id].phase.AtSend? {
      SentCarries(w, id, answer, raw);
    } else {
      ConfirmedCarries(w, id, answer, raw);
    }
  }

  lemma SentCarries(w: World, id: nat, answer: Answer, raw: string)
    requires id in w.calls && w.calls[id].phase.AtSend? && Carries(w.calls[id], raw) && HasBytes(w, w.calls[id].session, raw)
    ensures var v := AfterSend(w, id, w.calls[id], w.calls[id].phase.plan, w.calls[id].phase.via, answer);
      HasBytes(v, w.calls[id].session, raw) && (id in v.calls ==> Carries(v.calls[id], raw))
  {
  }

  predicate Left(v: World, id: nat, s: string, raw: string) {
    HasBytes(v, s, raw) && id !in v.calls
  }

  lemma GiveUpLeaves(w: World, id: nat, record: Record, via: Via, raw: string)
    requires id in w.calls && record.rawHex == Some(raw) && HasBytes(w, w.calls[id].session, raw)
    ensures Left(GiveUp(w, id, record, via), id, w.calls[id].session, raw)
  {
  }

  lemma StoredLeaves(w: World, id: nat, seen: Record, raw: string)
    requires id in w.calls && seen.rawHex == Some(raw)
    ensures Left(Ended(Stored(w, w.calls[id].session, seen), id), id, w.calls[id].session, raw)
    ensures Left(Finish(Stored(w, w.calls[id].session, seen), id), id, w.calls[id].session, raw)
  {
    hide FinalizeRefund;
  }

  lemma ConfirmedCarries(w: World, id: nat, answer: Answer, raw: string)
    requires id in w.calls && w.calls[id].phase.AtConfirm? && Carries(w.calls[id], raw) && HasBytes(w, w.calls[id].session, raw)
    ensures var v := AfterConfirm(w, id, w.calls[id], w.calls[id].phase.plan, w.calls[id].phase.via, answer);
      HasBytes(v, w.calls[id].session, raw) && (id in v.calls ==> Carries(v.calls[id], raw))
  {
    hide GiveUp, Ended, Finish, ConfirmDepth;
    var plan, via := w.calls[id].phase.plan, w.calls[id].phase.via;
    GiveUpLeaves(w, id, plan, via, raw);
    if answer.Confirmation? {
      var seen := ConfirmDepth(plan, w.calls[id].depth, answer).0;
      ReceiptKeepsIdentity(plan, w.calls[id].depth, answer);
      GiveUpLeaves(w, id, seen, via, raw);
      StoredLeaves(w, id, seen, raw);
    }
  }

  lemma ResumeSecure(keccak: Keccak, w: World, id: nat, answer: Answer, s: string, raw: string)
    requires Sound(w) && Secure(w, s, raw) && id in w.calls
    ensures Secure(Resume(keccak, w, id, answer), s, raw)
  {
    hide Sound, Resume, Carries, FactoryRuns.Safe, Around;
    var c, v := w.calls[id], Resume(keccak, w, id, answer);
    OkIsSafe(w);
    ResumeShape(keccak, w, id, answer);
    assert !Threatens(w, s, raw, c);
    if c.session != s {
      assert SameRecord(w, v, s);
      BesideSecure(w, v, s, raw);
    } else if Holds(w, c) {
      CarrierKeeps(keccak, w, id, answer, raw);
      OwnSecure(w, v, id, s, raw);
    } else {
      SupersededChangesNothing(keccak, w, id, answer);
      BesideSecure(w, v, s, raw);
    }
  }

  lemma OwnSecure(w: World, v: World, id: nat, s: string, raw: string)
    requires FactoryRuns.Safe(w.st) && Secure(w, s, raw) && id in w.calls && w.calls[id].session == s && OneCall(w, v, id, w.calls[id])
    requires HasBytes(v, s, raw) && (id in v.calls ==> Carries(v.calls[id], raw))
    ensures Secure(v, s, raw)
  {
    hide FactoryRuns.Safe, Around, Carries;
    var u := v.(records := w.records);
    SameAround(w, v, u);
    BesideSecure(w, u, s, raw);
    forall o | o in v.calls ensures !Threatens(v, s, raw, v.calls[o]) {
      assert !Threatens(u, s, raw, u.calls[o]);
    }
  }

  lemma SameAround(w: World, v: World, u: World)
    requires Around(w, v) && u.st == v.st && u.stewards == v.stewards
    ensures Around(w, u)
  {
  }

  // ---------------------------------------------------------------- commands

  /// A command finds the bytes, and works on them.
  lemma FindsBytes(keccak: Keccak, w: World, id: nat, raw: string)
    requires id in w.calls && w.calls[id].phase.AtNonce? && HasBytes(w, w.calls[id].session, raw)
    requires CheckRaw(keccak, w.records[w.calls[id].session]).Ok?
    requires ValidateRefund(w.st, w.calls[id].session, w.calls[id].now).Allowed?
    ensures var c, v := w.calls[id], Begin(keccak, w, id);
      v.records == w.records && v.leases == w.leases && v.st == w.st && v.stewards == w.stewards && v.inFlight == w.inFlight
      && id in v.calls && v.calls == w.calls[id := v.calls[id]] && Carries(v.calls[id], raw) && v.calls[id].session == c.session
  {
    hide CheckRaw, ValidateRefund, Reconstruct;
    ChecksNeedHash(keccak, w.records[w.calls[id].session]);
  }

  lemma ChecksNeedHash(keccak: Keccak, r: Record)
    requires CheckRaw(keccak, r).Ok?
    ensures r.rawHash.Some?
  {
    hide Hex.Decoded, KeccakHex;
  }

  lemma StoredPasses(keccak: Keccak, w: World, s: string, raw: string)
    requires Tidy(keccak, w) && HasBytes(w, s, raw)
    ensures CheckRaw(keccak, w.records[s]).Ok?
  {
    assert RecordTidy(keccak, w, s);
    hide CheckRaw;
  }

  /// A new command for a session whose bytes are secure.
  lemma OpenSecure(keccak: Keccak, w: World, id: nat, s: string, raw: string, lease: Lease, c: Call)
    requires Tidy(keccak, w) && Secure(w, s, raw) && id !in w.calls && FactoryRuns.Safe(w.st)
    requires c.session == s && c.generation == lease.generation && c.phase.AtNonce?
    requires ValidateRefund(w.st, s, c.now).Allowed? && !Settled(w, s)
    ensures Secure(Begin(keccak, Installed(w, id, s, lease, c), id), s, raw)
  {
    hide Tidy, Begin, Carries, FactoryRuns.Safe, ValidateRefund, CheckRaw;
    var installed := Installed(w, id, s, lease, c);
    StoredPasses(keccak, w, s, raw);
    FindsBytes(keccak, installed, id, raw);
    var v := Begin(keccak, installed, id);
    forall o | o in v.calls ensures !Threatens(v, s, raw, v.calls[o]) {
      if o != id {
        assert !Threatens(w, s, raw, w.calls[o]);
      }
    }
  }

  /// A command for another session.
  lemma OtherOpens(keccak: Keccak, w: World, id: nat, o: string, s: string, raw: string, lease: Lease, c: Call)
    requires Secure(w, s, raw) && id !in w.calls && FactoryRuns.Safe(w.st) && c.session == o && o != s && c.generation == lease.generation
    ensures Secure(Begin(keccak, Installed(w, id, o, lease, c), id), s, raw)
  {
    hide Begin, Carries, FactoryRuns.Safe, Around;
    var installed := Installed(w, id, o, lease, c);
    SelfAround(w, installed);
    BesideSecure(w, installed, s, raw);
    BeginShape(keccak, installed, id);
    var v := Begin(keccak, installed, id);
    assert SameRecord(installed, v, s);
    BesideSecure(installed, v, s, raw);
  }

  lemma DueSecure(w: World, s: string, raw: string, v: World)
    requires FactoryRuns.Safe(w.st) && Secure(w, s, raw) && Around(w, v)
    requires v.records == w.records && v.calls == w.calls && v.leases == w.leases
    ensures Secure(v, s, raw)
  {
    hide FactoryRuns.Safe, Around, Carries;
    BesideSecure(w, v, s, raw);
  }

  /// A session that is complete is not refundable; an unsettled one that passes the check may be.
  lemma CheckOfSettled(w: World, s: string, now: nat)
    requires !ValidateRefund(w.st, s, now).Refused? && !IsRefunded(w, s)
    ensures ValidateRefund(w.st, s, now).Allowed? && !Settled(w, s)
  {
  }

  lemma AcquireSecure(keccak: Keccak, w: World, id: nat, o: string, now: nat, s: string, raw: string)
    requires Sound(w) && Tidy(keccak, w) && Secure(w, s, raw) && id !in w.calls && !IsRefunded(w, s)
    ensures Secure(Acquire(keccak, w, id, o, now), s, raw)
  {
    hide Sound, Tidy, Secure, Acquire, Begin, Due, NextGeneration, Keeps, FactoryRuns.Safe, Around, ValidateRefund;
    var due := w.(st := Due(w, o, now));
    OkIsSafe(w);
    AcquireCases(keccak, w, id, o, now);
    DueIsAround(w, o, now);
    StateChangeTidy(keccak, w, due);
    DueSecure(w, s, raw, due);
    var generation := NextGeneration(w, o, now);
    if generation.Some? && !ValidateRefund(due.st, o, now).Refused? {
      var lease, c := NewLease(generation.value, now), NewCall(w, o, generation.value, now);
      if o != s {
        OtherOpens(keccak, due, id, o, s, raw, lease, c);
      } else {
        StillUnrefunded(w, o, now);
        CheckOfSettled(due, s, now);
        OpenSecure(keccak, due, id, s, raw, lease, c);
      }
    }
  }

  lemma StillUnrefunded(w: World, s: string, now: nat)
    requires Sound(w) && !IsRefunded(w, s)
    ensures !IsRefunded(w.(st := Due(w, s, now)), s)
  {
    hide Factory.ApplyEvent, Sound, Frozen.KeepsRefund;
    OkIsSafe(w);
    ExpiryFacts(w.st, s, now, "refund requested by verified EVM steward");
    if s !in w.inFlight {
      NoNewRefund(w.st, Due(w, s, now), s);
    }
  }

  lemma NoNewRefund(st: Factory.State, after: Factory.State, s: string)
    requires Frozen.KeepsRefund(st, after, s)
    ensures (s in after.sessions && after.sessions[s].payment == Factory.Refunded
             ==> s in st.sessions && st.sessions[s].payment == Factory.Refunded)
  {
  }

  // ---------------------------------------------------------------- every step, every run

  /// A refunded session's record is final, and no call of it has the lease.
  lemma RefundedSecure(w: World, v: World, s: string, raw: string)
    requires Sound(w) && Sound(v) && Keeps(w, v) && HasBytes(w, s, raw) && IsRefunded(w, s)
    ensures Secure(v, s, raw)
  {
    hide FactoryRuns.Safe, CallsOk, NoncesOk;
    assert RefundedOk(v, s);
  }

  lemma StepSecure(keccak: Keccak, w: World, step: Step, s: string, raw: string)
    requires Sound(w) && Tidy(keccak, w) && Secure(w, s, raw) && Enabled(w, step)
    ensures Secure(After(keccak, w, step), s, raw)
  {
    if IsRefunded(w, s) {
      hide Sound, Keeps, After, Enabled, Tidy;
      StepKeeps(keccak, w, step);
      RefundedSecure(w, After(keccak, w, step), s, raw);
    } else {
      hide Sound, Tidy, Secure, Acquire, Resume, FactoryRuns.After, FactoryRuns.Enabled, Around, FactoryRuns.Safe, IsRefunded;
      OkIsSafe(w);
      match step
      case Elsewhere(e) =>
        ElsewhereAround(w, e);
        DueSecure(w, s, raw, After(keccak, w, step));
      case Reconfigure(escrow, config) =>
        SelfAround(w, After(keccak, w, step));
        DueSecure(w, s, raw, After(keccak, w, step));
      case ReleaseNonce(pending) =>
        SelfAround(w, After(keccak, w, step));
        DueSecure(w, s, raw, After(keccak, w, step));
      case Command(id, o, now) => AcquireSecure(keccak, w, id, o, now, s, raw);
      case Continue(id, answer) => ResumeSecure(keccak, w, id, answer, s, raw);
    }
  }

  /// From a world where no call threatens them, stored bytes are kept by every run, whatever
  /// generations its commands get.
  lemma {:induction false} EveryRunIsSecure(keccak: Keccak, w: World, steps: seq<Step>, s: string, raw: string)
    requires Sound(w) && Tidy(keccak, w) && Secure(w, s, raw) && CanRun(keccak, w, steps)
    ensures Secure(Run(keccak, w, steps), s, raw)
    decreases |steps|
  {
    hide Sound, Tidy, Secure, After, Enabled, Keeps;
    if steps != [] {
      StepKeeps(keccak, w, steps[0]);
      StepTidy(keccak, w, steps[0]);
      StepSecure(keccak, w, steps[0], s, raw);
      EveryRunIsSecure(keccak, After(keccak, w, steps[0]), steps[1..], s, raw);
    }
  }
}
