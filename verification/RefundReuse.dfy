/// A run in which a command is given the generation of a call still in flight, and that call then
/// overwrites signed bytes with its own unsigned draft (backend/factory/src/api/public.rs:710-832).
module RefundReuse {
  import opened Bits
  import opened Escrow
  import opened Evm
  import Factory
  import Calldata
  import Hex
  import opened Limits
  import opened Options
  import opened RefundDraft
  import opened Refund
  import opened RefundBytes
  import opened RefundRuns
  import opened RlpEncoder

  predicate Refundable(st: Factory.State, s: string) {
    s in st.sessions && st.sessions[s].state == Factory.Expired && st.sessions[s].payment != Factory.Refunded
    && st.sessions[s].refundable && s in st.claims && st.claims[s].refundable
  }

  /// A refundable session with no refund begun, whose draft can be built.
  ghost predicate Ready(keccak: Keccak, w: World, s: string) {
    Refundable(w.st, s) && s !in w.records && s !in w.leases && s !in w.inFlight && w.calls == map[]
    && BuildDraft(keccak, ClaimOf(w, s), Steward(w, s), w.escrow, Reserve(w.nextNonce, 0), w.config).Ok?
  }

  lemma StillRefundable(st: Factory.State, s: string, now: nat)
    requires Refundable(st, s)
    ensures ValidateRefund(st, s, now) == Allowed
    ensures Factory.ApplyEvent(st, s, Factory.User, now, Factory.SessionExpired, "refund requested by verified EVM steward").state == st
  {
  }

  lemma Opens(keccak: Keccak, w: World, id: nat, s: string, now: nat)
    requires Refundable(w.st, s) && id !in w.calls && NextGeneration(w, s, now).Some?
    ensures var generation := NextGeneration(w, s, now).value;
      Acquire(keccak, w, id, s, now)
      == Begin(keccak, Installed(w, id, s, NewLease(generation, now), NewCall(w, s, generation, now)), id)
  {
    StillRefundable(w.st, s, now);
    hide Begin, Factory.ApplyEvent, ValidateRefund, NextGeneration;
  }

  /// A command that finds no bytes waits for a nonce.
  lemma OpensAtNonce(keccak: Keccak, w: World, id: nat, s: string, now: nat)
    requires Refundable(w.st, s) && id !in w.calls && NextGeneration(w, s, now).Some?
    requires s in w.records ==> w.records[s].rpcTxHash.None? && w.records[s].rawHash.None?
    ensures var generation := NextGeneration(w, s, now).value;
      Acquire(keccak, w, id, s, now) == Installed(w, id, s, NewLease(generation, now), NewCall(w, s, generation, now))
  {
    Opens(keccak, w, id, s, now);
    StillRefundable(w.st, s, now);
    hide Acquire, ValidateRefund, NextGeneration, Send, Reconstruct;
    var generation := NextGeneration(w, s, now).value;
    var v := Installed(w, id, s, NewLease(generation, now), NewCall(w, s, generation, now));
    assert v.calls[id := v.calls[id]] == v.calls;
  }

  /// A command that finds bytes sends them.
  lemma OpensAtSend(keccak: Keccak, w: World, id: nat, s: string, now: nat)
    requires Refundable(w.st, s) && id !in w.calls && NextGeneration(w, s, now).Some? && s in w.records
    requires w.records[s].rpcTxHash.None? && w.records[s].rawHash.Some? && w.records[s].rawHex.Some? && CheckRaw(keccak, w.records[s]).Ok?
    ensures var generation := NextGeneration(w, s, now).value;
      var c := NewCall(w, s, generation, now);
      Acquire(keccak, w, id, s, now)
      == Installed(w, id, s, NewLease(generation, now), c.(phase := AtSend(w.records[s], ByRaw)))
  {
    Opens(keccak, w, id, s, now);
    StillRefundable(w.st, s, now);
    hide Acquire, ValidateRefund, NextGeneration, CheckRaw, Reconstruct;
  }

  // ---------------------------------------------------------------- single steps

  lemma NonceStep(keccak: Keccak, w: World, id: nat, pending: u64)
    requires id in w.calls && Holds(w, w.calls[id]) && w.calls[id].phase == AtNonce && Draft(keccak, w, w.calls[id], pending).Some?
    ensures var (next, plan) := Draft(keccak, w, w.calls[id], pending).value;
      Resume(keccak, w, id, PendingNonce(pending)) == Waiting(next, id, w.calls[id].(phase := AtKey(plan)))
  {
    hide Draft;
  }

  lemma KeyStep(keccak: Keccak, w: World, id: nat, plan: Record)
    requires id in w.calls && Holds(w, w.calls[id]) && w.calls[id].phase == AtKey(plan)
    ensures Resume(keccak, w, id, PublicKey(true)) == Waiting(w, id, w.calls[id].(phase := AtSign(plan)))
  {
    hide GiveUp;
  }

  lemma SignStep(keccak: Keccak, w: World, id: nat, plan: Record, signature: seq<byte>)
    requires id in w.calls && Holds(w, w.calls[id]) && w.calls[id].phase == AtSign(plan)
    requires WithSignature(keccak, plan, true, signature).Some?
    requires CheckRaw(keccak, WithSignature(keccak, plan, true, signature).value).Ok?
    ensures var record := WithSignature(keccak, plan, true, signature).value;
      Resume(keccak, w, id, Answer.Signed(signature, Some(true)))
      == Waiting(Stored(w, w.calls[id].session, record), id, w.calls[id].(phase := AtSend(record, ByBroadcast)))
  {
    hide WithSignature, CheckRaw, GiveUp;
  }

  function Unsent(plan: Record): Record {
    plan.(lastError := Some("refund failed"))
  }

  lemma FailStep(keccak: Keccak, w: World, id: nat, plan: Record)
    requires id in w.calls && Holds(w, w.calls[id])
    requires w.calls[id].phase == AtKey(plan) || w.calls[id].phase == AtSend(plan, ByBroadcast)
    ensures Resume(keccak, w, id, Failed) == Ended(Stored(w, w.calls[id].session, Unsent(plan)), id)
  {
  }

  /// The stored draft validates, and rebuilds itself.
  lemma DraftAgain(keccak: Keccak, w: World, c: Call, draft: Record, pending: u64, nonce: u64)
    requires c.session in w.records && w.records[c.session] == draft
    requires BuildDraft(keccak, ClaimOf(w, c.session), Steward(w, c.session), c.escrow, nonce, c.config) == Ok(draft)
    ensures Draft(keccak, w, c, pending) == Some((w, draft))
  {
    DraftValidates(keccak, ClaimOf(w, c.session), Steward(w, c.session), c.escrow, nonce, c.config, c.config.keyName);
    DraftNames(keccak, ClaimOf(w, c.session), Steward(w, c.session), c.escrow, nonce, c.config);
    hide BuildDraft, ValidateDraft;
  }

  lemma DraftNames(keccak: Keccak, claimId: string, recipient: string, escrow: string, nonce: u64, config: Config)
    ensures var draft := BuildDraft(keccak, claimId, recipient, escrow, nonce, config);
      draft.Ok? ==>
        draft.value.claimId == claimId && draft.value.recipient == recipient && draft.value.escrow == escrow
        && draft.value.nonce == nonce && NoBytes(draft.value) && draft.value.rpcTxHash.None?
  {
    hide RefundTransaction, KeccakHex;
  }

  lemma Signs(keccak: Keccak, claimId: string, recipient: string, escrow: string, nonce: u64, config: Config, signature: seq<byte>)
    requires |signature| == 64 && BuildDraft(keccak, claimId, recipient, escrow, nonce, config).Ok?
    ensures var signed := WithSignature(keccak, BuildDraft(keccak, claimId, recipient, escrow, nonce, config).value, true, signature);
      signed.Some? && CheckRaw(keccak, signed.value).Ok? && signed.value.rawHex.Some? && signed.value.rawHash.Some?
      && signed.value.rpcTxHash.None?
  {
    SignedDraftPassesTheChecks(keccak, claimId, recipient, escrow, nonce, config, true, signature);
    SameTransaction(keccak, claimId, recipient, escrow, nonce, config);
    hide RefundTransaction, KeccakHex, SignedRaw, CheckRaw;
  }

  lemma SameTransaction(keccak: Keccak, claimId: string, recipient: string, escrow: string, nonce: u64, config: Config)
    requires BuildDraft(keccak, claimId, recipient, escrow, nonce, config).Ok?
    ensures RecordTransaction(keccak, BuildDraft(keccak, claimId, recipient, escrow, nonce, config).value)
      == RefundTransaction(keccak, claimId, escrow, nonce, config)
  {
    hide RefundTransaction, KeccakHex;
  }

  // ---------------------------------------------------------------- the run

  /// One step of a run.
  ghost predicate Goes(keccak: Keccak, w: World, step: Step, v: World) {
    Enabled(w, step) && After(keccak, w, step) == v
  }

  /// A run written out: the worlds it passes through.
  ghost predicate IsRun(keccak: Keccak, worlds: seq<World>, steps: seq<Step>) {
    |worlds| == |steps| + 1 && forall i :: 0 <= i < |steps| ==> Goes(keccak, worlds[i], steps[i], worlds[i + 1])
  }

  /// The first command drafts, under the next nonce, and falls asleep waiting for its key.
  function Drafted(w: World, s: string, t: nat, draft: Record): World {
    var c := NewCall(w, s, 1, t);
    var first := Installed(w, 0, s, NewLease(1, t), c);
    Waiting(Stored(first.(nextNonce := Some(Following(Reserve(w.nextNonce, 0)))), s, draft), 0, c.(phase := AtKey(draft)))
  }

  lemma FirstOpens(keccak: Keccak, w: World, s: string, t: nat)
    requires Ready(keccak, w, s)
    ensures Goes(keccak, w, Command(0, s, t), Installed(w, 0, s, NewLease(1, t), NewCall(w, s, 1, t)))
  {
    hide Acquire, BuildDraft, Refundable;
    assert NextGeneration(w, s, t) == Some(1);
    OpensAtNonce(keccak, w, 0, s, t);
  }

  lemma FirstDrafts(keccak: Keccak, w: World, s: string, t: nat, draft: Record)
    requires Ready(keccak, w, s)
    requires BuildDraft(keccak, ClaimOf(w, s), Steward(w, s), w.escrow, Reserve(w.nextNonce, 0), w.config) == Ok(draft)
    ensures Goes(keccak, Installed(w, 0, s, NewLease(1, t), NewCall(w, s, 1, t)), Continue(0, PendingNonce(0)), Drafted(w, s, t, draft))
  {
    hide BuildDraft, Resume, Refundable;
    NonceStep(keccak, Installed(w, 0, s, NewLease(1, t), NewCall(w, s, 1, t)), 0, 0);
  }

  /// What the second command's steps need of a world in which the first one sleeps.
  ghost predicate Asleep(keccak: Keccak, w: World, s: string, t: nat, draft: Record, nonce: u64) {
    Refundable(w.st, s) && w.calls.Keys == {0} && w.calls[0].session == s && w.calls[0].generation == 1
    && w.calls[0].phase == AtKey(draft) && s in w.inFlight && s in w.leases && w.leases[s] == NewLease(1, t)
    && t + 60002 < U64_MAX && s in w.records && w.records[s] == draft
    && BuildDraft(keccak, ClaimOf(w, s), Steward(w, s), w.escrow, nonce, w.config) == Ok(draft)
  }

  lemma DraftedSleeps(keccak: Keccak, w: World, s: string, t: nat, draft: Record)
    requires Ready(keccak, w, s) && t + 60002 < U64_MAX
    requires BuildDraft(keccak, ClaimOf(w, s), Steward(w, s), w.escrow, Reserve(w.nextNonce, 0), w.config) == Ok(draft)
    ensures Asleep(keccak, Drafted(w, s, t, draft), s, t, draft, Reserve(w.nextNonce, 0))
  {
    hide BuildDraft, Refundable;
  }

  /// The second command, in each of its phases.
  function Second(w: World, s: string, t: nat, phase: Phase): World {
    Installed(w, 1, s, NewLease(2, t + 60001), NewCall(w, s, 2, t + 60001).(phase := phase))
  }

  lemma SecondOpens(keccak: Keccak, w: World, s: string, t: nat, draft: Record, nonce: u64)
    requires Asleep(keccak, w, s, t, draft, nonce)
    ensures Goes(keccak, w, Command(1, s, t + 60001), Second(w, s, t, AtNonce))
  {
    hide Acquire, BuildDraft, Refundable;
    DraftNames(keccak, ClaimOf(w, s), Steward(w, s), w.escrow, nonce, w.config);
    assert NextGeneration(w, s, t + 60001) == Some(2);
    OpensAtNonce(keccak, w, 1, s, t + 60001);
  }

  lemma SecondRebuilds(keccak: Keccak, w: World, s: string, t: nat, draft: Record, nonce: u64)
    requires Asleep(keccak, w, s, t, draft, nonce)
    ensures Goes(keccak, Second(w, s, t, AtNonce), Continue(1, PendingNonce(0)), Second(w, s, t, AtKey(draft)))
  {
    hide Resume, BuildDraft, Refundable, Draft;
    var v := Second(w, s, t, AtNonce);
    DraftAgain(keccak, v, v.calls[1], draft, 0, nonce);
    NonceStep(keccak, v, 1, 0);
    assert Waiting(v, 1, v.calls[1].(phase := AtKey(draft))) == Second(w, s, t, AtKey(draft));
  }

  lemma SecondGetsKey(keccak: Keccak, w: World, s: string, t: nat, draft: Record)
    ensures Goes(keccak, Second(w, s, t, AtKey(draft)), Continue(1, PublicKey(true)), Second(w, s, t, AtSign(draft)))
  {
    hide Resume;
    var v := Second(w, s, t, AtKey(draft));
    KeyStep(keccak, v, 1, draft);
    assert Waiting(v, 1, v.calls[1].(phase := AtSign(draft))) == Second(w, s, t, AtSign(draft));
  }

  lemma SecondSigns(keccak: Keccak, w: World, s: string, t: nat, draft: Record, record: Record, signature: seq<byte>)
    requires WithSignature(keccak, draft, true, signature) == Some(record) && CheckRaw(keccak, record).Ok?
    ensures Goes(keccak, Second(w, s, t, AtSign(draft)), Continue(1, Answer.Signed(signature, Some(true))),
                 Stored(Second(w, s, t, AtSend(record, ByBroadcast)), s, record))
  {
    hide Resume, WithSignature, CheckRaw;
    var v := Second(w, s, t, AtSign(draft));
    SignStep(keccak, v, 1, draft, signature);
    assert Waiting(Stored(v, s, record), 1, v.calls[1].(phase := AtSend(record, ByBroadcast)))
      == Stored(Second(w, s, t, AtSend(record, ByBroadcast)), s, record);
  }

  /// The second command's broadcast fails; its signed record stays and its lease goes.
  function Left(w: World, s: string, record: Record): World {
    w.(records := w.records[s := Unsent(record)], leases := w.leases - {s}, inFlight := w.inFlight - {s})
  }

  lemma SecondFails(keccak: Keccak, w: World, s: string, t: nat, draft: Record, nonce: u64, record: Record)
    requires Asleep(keccak, w, s, t, draft, nonce)
    ensures Goes(keccak, Stored(Second(w, s, t, AtSend(record, ByBroadcast)), s, record), Continue(1, Failed), Left(w, s, record))
  {
    hide Resume, BuildDraft, Refundable;
    var v := Stored(Second(w, s, t, AtSend(record, ByBroadcast)), s, record);
    FailStep(keccak, v, 1, record);
    var u := Ended(Stored(v, s, Unsent(record)), 1);
    assert u.records == Left(w, s, record).records && u.leases == Left(w, s, record).leases;
    assert u.inFlight == Left(w, s, record).inFlight && u.calls == Left(w, s, record).calls;
  }

  /// The third command gets generation 1 again and sends the stored bytes.
  function Third(w: World, s: string, t: nat, record: Record): World {
    var left := Left(w, s, record);
    Installed(left, 2, s, NewLease(1, t + 60002), NewCall(left, s, 1, t + 60002).(phase := AtSend(Unsent(record), ByRaw)))
  }

  lemma ThirdOpens(keccak: Keccak, w: World, s: string, t: nat, draft: Record, nonce: u64, record: Record)
    requires Asleep(keccak, w, s, t, draft, nonce)
    requires CheckRaw(keccak, record).Ok? && record.rawHex.Some? && record.rawHash.Some? && record.rpcTxHash.None?
    ensures Goes(keccak, Left(w, s, record), Command(2, s, t + 60002), Third(w, s, t, record))
    ensures !Fresh(Left(w, s, record), Command(2, s, t + 60002))
  {
    var left := Left(w, s, record);
    SameCheck(keccak, record);
    hide Acquire, BuildDraft, CheckRaw, Refundable;
    assert NextGeneration(left, s, t + 60002) == Some(1);
    OpensAtSend(keccak, left, 2, s, t + 60002);
    assert 0 in left.calls && left.calls[0].session == s && left.calls[0].generation == 1;
  }

  /// The first command has stored its unsigned draft over the signed record.
  function Lost(w: World, s: string, draft: Record): World {
    w.(records := w.records[s := Unsent(draft)], leases := w.leases - {s}, inFlight := w.inFlight - {s}, calls := w.calls - {0})
  }

  lemma FirstWakes(keccak: Keccak, w: World, s: string, t: nat, draft: Record, nonce: u64, record: Record)
    requires Asleep(keccak, w, s, t, draft, nonce)
    ensures Goes(keccak, Third(w, s, t, record), Continue(0, Failed), Lost(Third(w, s, t, record), s, draft))
  {
    hide Resume, BuildDraft, Refundable;
    FailStep(keccak, Third(w, s, t, record), 0, draft);
  }

  lemma SameCheck(keccak: Keccak, record: Record)
    ensures CheckRaw(keccak, Unsent(record)) == CheckRaw(keccak, record)
  {
  }

  lemma LeftHasBytes(w: World, s: string, record: Record)
    ensures s in Left(w, s, record).records && Left(w, s, record).records[s].rawHex == record.rawHex
  {
  }

  lemma LostHasNone(w: World, s: string, draft: Record)
    requires NoBytes(draft)
    ensures s in Lost(w, s, draft).records && Lost(w, s, draft).records[s].rawHex.None?
  {
  }

  lemma Ingredients(keccak: Keccak, w: World, s: string, t: nat, signature: seq<byte>) returns (draft: Record, record: Record)
    requires Ready(keccak, w, s) && t + 60002 < U64_MAX && |signature| == 64
    ensures BuildDraft(keccak, ClaimOf(w, s), Steward(w, s), w.escrow, Reserve(w.nextNonce, 0), w.config) == Ok(draft)
    ensures Asleep(keccak, Drafted(w, s, t, draft), s, t, draft, Reserve(w.nextNonce, 0)) && NoBytes(draft)
    ensures WithSignature(keccak, draft, true, signature) == Some(record) && CheckRaw(keccak, record).Ok?
    ensures record.rawHex.Some? && record.rawHash.Some? && record.rpcTxHash.None?
  {
    hide BuildDraft, WithSignature, CheckRaw, Refundable, Asleep, Drafted;
    var nonce := Reserve(w.nextNonce, 0);
    draft := BuildDraft(keccak, ClaimOf(w, s), Steward(w, s), w.escrow, nonce, w.config).value;
    DraftedSleeps(keccak, w, s, t, draft);
    DraftNames(keccak, ClaimOf(w, s), Steward(w, s), w.escrow, nonce, w.config);
    Signs(keccak, ClaimOf(w, s), Steward(w, s), w.escrow, nonce, w.config, signature);
    record := WithSignature(keccak, draft, true, signature).value;
  }

  lemma Assembled(keccak: Keccak, worlds: seq<World>, steps: seq<Step>)
    requires |worlds| == 10 && |steps| == 9
    requires Goes(keccak, worlds[0], steps[0], worlds[1]) && Goes(keccak, worlds[1], steps[1], worlds[2])
    requires Goes(keccak, worlds[2], steps[2], worlds[3]) && Goes(keccak, worlds[3], steps[3], worlds[4])
    requires Goes(keccak, worlds[4], steps[4], worlds[5]) && Goes(keccak, worlds[5], steps[5], worlds[6])
    requires Goes(keccak, worlds[6], steps[6], worlds[7]) && Goes(keccak, worlds[7], steps[7], worlds[8])
    requires Goes(keccak, worlds[8], steps[8], worlds[9])
    ensures IsRun(keccak, worlds, steps)
  {
    hide Goes;
  }

  /// From every world where a refund can begin there is a run after which signed bytes are stored,
  /// then a command that is not fresh, and a continuation that leaves the record without them.
  lemma ReuseLosesBytes(keccak: Keccak, w: World, s: string, t: nat, signature: seq<byte>)
    returns (worlds: seq<World>, steps: seq<Step>)
    requires Ready(keccak, w, s) && t + 60002 < U64_MAX && |signature| == 64
    ensures |steps| == 9 && IsRun(keccak, worlds, steps) && worlds[0] == w
    ensures s in worlds[7].records && worlds[7].records[s].rawHex.Some?
    ensures !Fresh(worlds[7], steps[7])
    ensures s in worlds[9].records && worlds[9].records[s].rawHex.None?
  {
    hide Goes, Asleep, BuildDraft, WithSignature, CheckRaw, Fresh, Ready, Drafted, Second, Left, Third, Lost, Stored,
      Installed, NewLease, NewCall, NoBytes, Unsent, IsRun;
    var nonce := Reserve(w.nextNonce, 0);
    var draft, record := Ingredients(keccak, w, s, t, signature);
    var d := Drafted(w, s, t, draft);
    FirstOpens(keccak, w, s, t);
    FirstDrafts(keccak, w, s, t, draft);
    SecondOpens(keccak, d, s, t, draft, nonce);
    SecondRebuilds(keccak, d, s, t, draft, nonce);
    SecondGetsKey(keccak, d, s, t, draft);
    SecondSigns(keccak, d, s, t, draft, record, signature);
    SecondFails(keccak, d, s, t, draft, nonce, record);
    ThirdOpens(keccak, d, s, t, draft, nonce, record);
    FirstWakes(keccak, d, s, t, draft, nonce, record);
    LeftHasBytes(d, s, record);
    LostHasNone(Third(d, s, t, record), s, draft);
    steps := [Command(0, s, t), Continue(0, PendingNonce(0)), Command(1, s, t + 60001), Continue(1, PendingNonce(0)),
              Continue(1, PublicKey(true)), Continue(1, Answer.Signed(signature, Some(true))), Continue(1, Failed),
              Command(2, s, t + 60002), Continue(0, Failed)];
    worlds := [w, Installed(w, 0, s, NewLease(1, t), NewCall(w, s, 1, t)), d, Second(d, s, t, AtNonce), Second(d, s, t, AtKey(draft)),
               Second(d, s, t, AtSign(draft)), Stored(Second(d, s, t, AtSend(record, ByBroadcast)), s, record),
               Left(d, s, record), Third(d, s, t, record), Lost(Third(d, s, t, record), s, draft)];
    Assembled(keccak, worlds, steps);
  }

  /// Such worlds exist: before any refund, for every refundable session whose claim and escrow
  /// addresses are well-formed.
  lemma StartIsReady(keccak: Keccak, st: Factory.State, stewards: map<string, string>, config: Config, nextNonce: Option<u64>,
                     s: string, claim: seq<byte>, escrow: seq<byte>)
    requires Refundable(st, s) && s in st.sessions && st.sessions[s].claimId == Hex.Prefixed(claim) && |claim| == 32 && |escrow| == 20
    ensures var w := Start(st, stewards, Hex.Prefixed(escrow), config, nextNonce); Ready(keccak, w, s) && BytesOk(w)
  {
    Hex.ReadingInvertsPrinting(claim);
    Hex.ReadingInvertsPrinting(escrow);
    hide Refundable, SigningPayload, KeccakHex, Calldata.Call, Hex.Decoded, Hex.Prefixed;
    assert Calldata.RefundCalldata(keccak, Hex.Prefixed(claim)).Ok?;
    assert Calldata.FixedHex(Hex.Prefixed(escrow), 20).Ok?;
    var w := Start(st, stewards, Hex.Prefixed(escrow), config, nextNonce);
    assert s in st.sessions && ClaimOf(w, s) == Hex.Prefixed(claim);
    assert RefundTransaction(keccak, ClaimOf(w, s), w.escrow, Reserve(w.nextNonce, 0), w.config).Ok?;
  }
}
