/// Admission of an automaton's reproduction: age, cooldown, reserves and royalties
/// (backend/factory/src/reproduction.rs, backend/factory/src/spawn.rs, backend/factory/src/types.rs).
module Reproduction {
  import opened Escrow
  import opened Factory
  import FactoryRuns
  import Invariants
  import JobTimes
  import opened Limits
  import opened Options
  import Writes

  const REPRODUCTION_MIN_AGE_MS: nat := 604800000
  const REPRODUCTION_COOLDOWN_MS: nat := 259200000
  const REPRODUCTION_TERMINAL_RESERVE: nat := 10000000
  const REPRODUCTION_INFERENCE_RESERVE: nat := 10000000
  const REPRODUCTION_TOPUP_RESERVE: nat := 10000000
  const REPRODUCTION_MIN_ENDOWMENT: nat := 25000000
  const REPRODUCTION_PARENT_ROYALTY_BPS: nat := 1000
  const REPRODUCTION_PROGENITOR_ROYALTY_BPS: nat := 500

  type Millis = n: nat | n <= U64_MAX
  type Amount = n: nat | n < U128_LIMIT

  /// A registered automaton: when it was spawned, in which session, and whether it has died.
  datatype Parent = Parent(createdAt: Millis, session: string, dead: bool)

  /// A session of reproductive origin: whose, and when it was created.
  datatype Birth = Birth(parent: string, createdAt: Millis)

  /// What a parent asks for, with what was verified about it.
  datatype Request = Request(gross: Amount, balance: Amount, inheritanceOk: bool, constitutionOk: bool)

  datatype World = World(st: State, registry: map<string, Parent>, births: map<string, Birth>, fee: Amount, cost: Amount)

  datatype Reason = InvalidInheritance | Unauthorized | ParentSessionMissing | TooYoung | CoolingDown
    | InvalidConstitution | TooLittle | ReservesTouched

  // ---------------------------------------------------------------- saturating arithmetic

  function Plus128(a: Amount, b: Amount): Amount {
    if a + b < U128_LIMIT then a + b else U128_LIMIT - 1
  }

  function Times128(a: Amount, b: Amount): Amount {
    if a * b < U128_LIMIT then a * b else U128_LIMIT - 1
  }

  function Minus64(a: Millis, b: Millis): Millis {
    if a >= b then a - b else 0
  }

  function Plus64(a: Millis, b: Millis): Millis {
    if a + b <= U64_MAX then a + b else U64_MAX
  }

  // ---------------------------------------------------------------- the last reproduction

  /// A reproduction counts until its session expires.
  predicate Counts(w: World, id: string, parent: string) {
    id in w.births && w.births[id].parent == parent && id in w.st.sessions && w.st.sessions[id].state != Expired
  }

  function BirthTimes(w: World, parent: string): set<Millis> {
    set id | id in w.births && Counts(w, id, parent) :: w.births[id].createdAt
  }

  predicate IsLatest(t: Millis, times: set<Millis>) {
    t in times && forall u :: u in times ==> u <= t
  }

  lemma {:induction false} FindLatest(times: set<Millis>) returns (t: Millis)
    requires times != {}
    ensures IsLatest(t, times)
    decreases |times|
  {
    t :| t in times;
    if times != {t} {
      var u := FindLatest(times - {t});
      assert forall x :: x in times ==> x == t || x in times - {t};
      if u > t {
        t := u;
      }
    }
  }

  ghost function Latest(times: set<Millis>): (t: Option<Millis>)
    ensures t.None? <==> times == {}
    ensures t.Some? ==> IsLatest(t.value, times)
  {
    if times == {} then None
    else
      assert exists t :: IsLatest(t, times) by { var u := FindLatest(times); assert IsLatest(u, times); }
      var t: Millis :| IsLatest(t, times);
      Some(t)
  }

  ghost function LastReproduction(w: World, parent: string): Option<Millis> {
    Latest(BirthTimes(w, parent))
  }

  // ---------------------------------------------------------------- admission

  function MinimumGross(w: World): Amount {
    Plus128(Plus128(w.fee, w.cost), REPRODUCTION_MIN_ENDOWMENT)
  }

  function RequiredBalance(gross: Amount): Amount {
    Plus128(Plus128(Plus128(gross, REPRODUCTION_TERMINAL_RESERVE), REPRODUCTION_INFERENCE_RESERVE), REPRODUCTION_TOPUP_RESERVE)
  }

  predicate OldEnough(p: Parent, now: Millis) {
    Minus64(now, p.createdAt) >= REPRODUCTION_MIN_AGE_MS
  }

  predicate Rested(last: Option<Millis>, now: Millis) {
    last.Some? ==> Minus64(now, last.value) >= REPRODUCTION_COOLDOWN_MS
  }

  /// The checks of `create_reproduction_session_with_verified_balance`, in their order.
  ghost function Refusal(w: World, parent: string, r: Request, now: Millis): Option<Reason> {
    if !r.inheritanceOk then Some(InvalidInheritance)
    else if parent !in w.registry || w.registry[parent].dead then Some(Unauthorized)
    else if w.registry[parent].session !in w.st.sessions then Some(ParentSessionMissing)
    else if !OldEnough(w.registry[parent], now) then Some(TooYoung)
    else if !Rested(LastReproduction(w, parent), now) then Some(CoolingDown)
    else if !r.constitutionOk then Some(InvalidConstitution)
    else if r.gross < MinimumGross(w) then Some(TooLittle)
    else if r.balance < RequiredBalance(r.gross) then Some(ReservesTouched)
    else None
  }

  /// An admitted reproduction becomes a spawn session like any other, marked with its origin.
  ghost function Admit(w: World, id: string, claimId: string, parent: string, r: Request, paused: bool, now: Millis): World {
    if Refusal(w, parent, r, now).Some? then w
    else
      var created := Create(w.st, id, claimId, r.gross, w.fee + w.cost, paused, now);
      if created.error.Some? then w.(st := created.state)
      else w.(st := created.state, births := w.births[id := Birth(parent, now)])
  }

  // ---------------------------------------------------------------- eligibility, as it is reported

  datatype Eligibility = Eligible | MinimumAge | Cooldown

  /// `reproduction_eligibility` for a registered, living parent.
  ghost function Reported(w: World, parent: string, now: Millis): Eligibility
    requires parent in w.registry
  {
    var last := LastReproduction(w, parent);
    if now < Plus64(w.registry[parent].createdAt, REPRODUCTION_MIN_AGE_MS) then MinimumAge
    else if last.Some? && now < Plus64(last.value, REPRODUCTION_COOLDOWN_MS) then Cooldown
    else Eligible
  }

  predicate Overflows(p: Parent, last: Option<Millis>) {
    p.createdAt + REPRODUCTION_MIN_AGE_MS > U64_MAX || (last.Some? && last.value + REPRODUCTION_COOLDOWN_MS > U64_MAX)
  }

  /// What is reported is what is admitted: the report saturates a deadline where admission saturates
  /// an age, and the two part exactly at the last representable millisecond, past an unreachable deadline.
  lemma ReportedIsAdmitted(w: World, parent: string, now: Millis)
    requires parent in w.registry
    ensures var last := LastReproduction(w, parent);
      (Reported(w, parent, now).Eligible? <==> OldEnough(w.registry[parent], now) && Rested(last, now))
      <==> !(now == U64_MAX && Overflows(w.registry[parent], last))
  {
    hide LastReproduction;
  }

  /// The balance that is asked for: the payment and three reserves of ten million, or all that 128
  /// bits can hold.
  function Needed(gross: Amount): nat {
    if gross + 30000000 < U128_LIMIT then gross + 30000000 else U128_LIMIT - 1
  }

  /// The price that is asked for, likewise: fee, cost and an endowment of twenty-five million.
  function Price(w: World): nat {
    if w.fee + w.cost + 25000000 < U128_LIMIT then w.fee + w.cost + 25000000 else U128_LIMIT - 1
  }

  /// Main result. A reproduction is admitted exactly when what was verified about it holds, its parent is
  /// registered, alive, of a stored session and seven days old, every reproduction of the parent that has
  /// not expired is three days old, and both sums are covered.
  lemma AdmittedExactly(w: World, parent: string, r: Request, now: Millis)
    ensures Refusal(w, parent, r, now).None?
      <==> (r.inheritanceOk && r.constitutionOk
            && parent in w.registry && !w.registry[parent].dead && w.registry[parent].session in w.st.sessions
            && w.registry[parent].createdAt + 604800000 <= now
            && (forall id :: Counts(w, id, parent) ==> w.births[id].createdAt + 259200000 <= now)
            && r.gross >= Price(w) && r.balance >= Needed(r.gross))
  {
    LastRested(w, parent, now);
    hide LastReproduction;
  }

  lemma LastRested(w: World, parent: string, now: Millis)
    ensures Rested(LastReproduction(w, parent), now)
      <==> forall id :: Counts(w, id, parent) ==> w.births[id].createdAt + REPRODUCTION_COOLDOWN_MS <= now
  {
    var times := BirthTimes(w, parent);
    forall id | Counts(w, id, parent) ensures w.births[id].createdAt in times {
    }
    if times != {} {
      var t := LastReproduction(w, parent).value;
      var id :| id in w.births && Counts(w, id, parent) && w.births[id].createdAt == t;
    }
  }

  /// An admitted reproduction is a new session for its price, remembered as its parent's, at this time,
  /// unless the factory is paused; a refused one changes nothing.
  lemma AdmittedIsBorn(w: World, id: string, claimId: string, parent: string, r: Request, paused: bool, now: Millis)
    requires FactoryRuns.Safe(w.st) && id !in w.st.sessions
    ensures var v := Admit(w, id, claimId, parent, r, paused, now);
      if Refusal(w, parent, r, now).Some? || paused || r.gross < w.fee + w.cost then v == w
      else
        id in v.births && v.births == w.births[id := Birth(parent, now)] && id in v.st.sessions
        && v.st.sessions[id].gross == r.gross && v.st.sessions[id].claimId == claimId && v.st.sessions[id].state == AwaitingPayment
        && v.st.sessions[id].expiresAt == now + w.st.ttl && Counts(v, id, parent)
        && v.registry == w.registry && v.fee == w.fee && v.cost == w.cost
  {
    hide Refusal, Create, FactoryRuns.Safe, JobTimes.PollDue, Invariants.OnlyTouches;
    Writes.CreatedExactly(w.st, id, claimId, r.gross, w.fee + w.cost, paused, now);
  }

  // ---------------------------------------------------------------- reserves

  /// A parent that pays for an admitted reproduction keeps its three reserves, unless the payment is
  /// so large that the required balance saturates.
  lemma AdmittedKeepsReserves(w: World, parent: string, r: Request, now: Millis)
    requires Refusal(w, parent, r, now).None?
    ensures r.balance >= r.gross
    ensures r.balance - r.gross >= REPRODUCTION_TERMINAL_RESERVE + REPRODUCTION_INFERENCE_RESERVE + REPRODUCTION_TOPUP_RESERVE
      || (r.gross + 30000000 >= U128_LIMIT && r.balance == U128_LIMIT - 1)
    ensures w.fee + w.cost + REPRODUCTION_MIN_ENDOWMENT < U128_LIMIT ==>
              r.gross - w.fee - w.cost >= REPRODUCTION_MIN_ENDOWMENT
  {
    hide LastReproduction;
  }

  // ---------------------------------------------------------------- royalties

  /// `royalty_amount`
  function Royalty(fee: Amount, bps: nat): Amount
    requires bps <= 10000
  {
    Times128(fee, bps) / 10000
  }

  lemma RoyaltyIsAShare(fee: Amount, bps: nat)
    requires bps <= 10000
    ensures Royalty(fee, bps) * 10000 <= fee * bps
    ensures fee * bps < U128_LIMIT ==> fee * bps < (Royalty(fee, bps) + 1) * 10000
  {
  }

  /// A tenth to the parent and a twentieth to the progenitor, rounded down.
  lemma RoyaltyShares(fee: Amount)
    ensures var one, two := Royalty(fee, REPRODUCTION_PARENT_ROYALTY_BPS), Royalty(fee, REPRODUCTION_PROGENITOR_ROYALTY_BPS);
      (if fee * 1000 < U128_LIMIT then 10 * one <= fee < 10 * one + 10 else one == (U128_LIMIT - 1) / 10000)
      && (if fee * 500 < U128_LIMIT then 20 * two <= fee < 20 * two + 20 else two == (U128_LIMIT - 1) / 10000)
  {
  }

  /// The amounts of `reproduction_release`: the child's, the parent's and the progenitor's.
  function ReleaseAmounts(gross: Amount, fee: Amount, cost: Amount): (Amount, Amount, Amount)
    requires fee + cost <= gross
  {
    (gross - (fee + cost), Royalty(fee, REPRODUCTION_PARENT_ROYALTY_BPS), Royalty(fee, REPRODUCTION_PROGENITOR_ROYALTY_BPS))
  }

  /// A release never pays out more than came in: the creation cost and at least 85 per cent of the
  /// fee stay, and the royalties are the full 15 per cent, short of rounding, for every fee that does
  /// not saturate: a tenth to the parent, a twentieth to the progenitor, and the rest to the child.
  lemma ReleaseFitsThePayment(gross: Amount, fee: Amount, cost: Amount)
    requires fee + cost <= gross
    ensures var (child, one, two) := ReleaseAmounts(gross, fee, cost);
      100 * (gross - cost - (child + one + two)) >= 85 * fee
      && child + one + two <= gross
      && (fee * 1000 < U128_LIMIT ==> 100 * (one + two) + 200 > 15 * fee)
    ensures var (child, one, two) := ReleaseAmounts(gross, fee, cost);
      child + fee + cost == gross
      && (if fee * 1000 < U128_LIMIT then 10 * one <= fee < 10 * one + 10 else one == (U128_LIMIT - 1) / 10000)
      && (if fee * 500 < U128_LIMIT then 20 * two <= fee < 20 * two + 20 else two == (U128_LIMIT - 1) / 10000)
  {
    RoyaltyShares(fee);
    RoyaltyIsAShare(fee, REPRODUCTION_PARENT_ROYALTY_BPS);
    RoyaltyIsAShare(fee, REPRODUCTION_PROGENITOR_ROYALTY_BPS);
    hide Royalty;
  }

  // ---------------------------------------------------------------- runs

  datatype Step =
    | Elsewhere(step: FactoryRuns.Step)
    | Register(canister: string, entry: Parent)
    | Configure(fee: Amount, cost: Amount)
    | Reproduce(id: string, claimId: string, parent: string, request: Request, paused: bool, now: Millis)

  ghost predicate Enabled(w: World, step: Step) {
    match step
    case Elsewhere(s) => FactoryRuns.Enabled(w.st, s)
    case Register(_, _) => true
    case Configure(_, _) => true
    case Reproduce(id, _, _, _, _, _) => id !in w.st.sessions
  }

  ghost function After(w: World, step: Step): World
    requires Enabled(w, step)
  {
    match step
    case Elsewhere(s) => w.(st := FactoryRuns.After(w.st, s))
    case Register(canister, entry) => w.(registry := w.registry[canister := entry])
    case Configure(fee, cost) => w.(fee := fee, cost := cost)
    case Reproduce(id, claimId, parent, request, paused, now) => Admit(w, id, claimId, parent, request, paused, now)
  }

  predicate Apart(a: Millis, b: Millis) {
    a + REPRODUCTION_COOLDOWN_MS <= b || b + REPRODUCTION_COOLDOWN_MS <= a
  }

  /// Any two reproductions of one parent that count were created a cooldown apart.
  ghost predicate Spaced(w: World) {
    (forall id :: id in w.births ==> id in w.st.sessions)
    && (forall i, j, parent :: Counts(w, i, parent) && Counts(w, j, parent) && i != j ==>
          Apart(w.births[i].createdAt, w.births[j].createdAt))
  }

  lemma ForwardSpaced(w: World, v: World)
    requires Spaced(w) && FactoryRuns.Forward(w.st, v.st) && v.births == w.births
    ensures Spaced(v)
  {
    forall i, parent | Counts(v, i, parent) ensures Counts(w, i, parent) {
      assert i in w.st.sessions;
    }
  }

  /// A new reproduction comes a cooldown after every one that counts.
  lemma NewComesLater(w: World, parent: string, r: Request, now: Millis, o: string)
    requires Refusal(w, parent, r, now).None? && Counts(w, o, parent)
    ensures w.births[o].createdAt + REPRODUCTION_COOLDOWN_MS <= now
  {
    assert w.births[o].createdAt in BirthTimes(w, parent);
  }

  lemma AdmitSpaced(w: World, id: string, claimId: string, parent: string, r: Request, paused: bool, now: Millis)
    requires Spaced(w) && FactoryRuns.Safe(w.st) && id !in w.st.sessions
    ensures Spaced(Admit(w, id, claimId, parent, r, paused, now)) && FactoryRuns.Safe(Admit(w, id, claimId, parent, r, paused, now).st)
  {
    hide FactoryRuns.Safe, Create, FactoryRuns.Forward, Refusal, Spaced;
    SafeSessions(w.st);
    var created := Create(w.st, id, claimId, r.gross, w.fee + w.cost, paused, now);
    FactoryRuns.CreateIsOk(w.st, id, claimId, r.gross, w.fee + w.cost, paused, now);
    FactoryRuns.CreateForward(w.st, id, claimId, r.gross, w.fee + w.cost, paused, now);
    var grown := w.(st := created.state);
    ForwardSpaced(w, grown);
    if Refusal(w, parent, r, now).None? && created.error.None? {
      CreatedIsStored(w.st, id, claimId, r.gross, w.fee + w.cost, paused, now);
      BirthSpaced(w, grown, id, parent, r, now);
    }
  }

  lemma CreatedIsStored(st: State, id: string, claimId: string, gross: nat, minimum: nat, paused: bool, now: nat)
    requires Create(st, id, claimId, gross, minimum, paused, now).error.None?
    ensures id in Create(st, id, claimId, gross, minimum, paused, now).state.sessions
  {
  }

  lemma BirthSpaced(w: World, grown: World, id: string, parent: string, r: Request, now: Millis)
    requires Spaced(w) && Spaced(grown) && FactoryRuns.Forward(w.st, grown.st) && grown == w.(st := grown.st)
    requires id !in w.st.sessions && id in grown.st.sessions && Refusal(w, parent, r, now).None?
    ensures Spaced(grown.(births := grown.births[id := Birth(parent, now)]))
  {
    hide Refusal;
    var v := grown.(births := grown.births[id := Birth(parent, now)]);
    forall o, p | o != id && Counts(v, o, p)
      ensures Counts(grown, o, p) && Counts(w, o, p) && (p == parent ==> Apart(v.births[o].createdAt, now))
    {
      if p == parent {
        NewComesLater(w, parent, r, now, o);
      }
    }
  }

  lemma SafeSessions(st: State)
    requires FactoryRuns.Safe(st)
    ensures Invariants.SessionsOk(st)
  {
  }

  lemma StepSpaced(w: World, step: Step)
    requires Spaced(w) && FactoryRuns.Safe(w.st) && Enabled(w, step)
    ensures Spaced(After(w, step)) && FactoryRuns.Safe(After(w, step).st)
  {
    hide FactoryRuns.Safe, FactoryRuns.After, FactoryRuns.Enabled, FactoryRuns.Forward, Admit, Spaced;
    match step
    case Elsewhere(s) =>
      FactoryRuns.StepForward(w.st, s);
      FactoryRuns.StepKeepsSafe(w.st, s);
      ForwardSpaced(w, After(w, step));
    case Register(_, _) =>
      FactoryRuns.SameForward(w.st, w.st);
      ForwardSpaced(w, After(w, step));
    case Configure(_, _) =>
      FactoryRuns.SameForward(w.st, w.st);
      ForwardSpaced(w, After(w, step));
    case Reproduce(id, claimId, parent, request, paused, now) => AdmitSpaced(w, id, claimId, parent, request, paused, now);
  }

  ghost predicate CanRun(w: World, steps: seq<Step>)
    decreases |steps|
  {
    steps == [] || (Enabled(w, steps[0]) && CanRun(After(w, steps[0]), steps[1..]))
  }

  ghost function Run(w: World, steps: seq<Step>): World
    requires CanRun(w, steps)
    decreases |steps|
  {
    if steps == [] then w else Run(After(w, steps[0]), steps[1..])
  }

  lemma {:induction false} EveryRunIsSpaced(w: World, steps: seq<Step>)
    requires Spaced(w) && FactoryRuns.Safe(w.st) && CanRun(w, steps)
    ensures Spaced(Run(w, steps))
    decreases |steps|
  {
    hide Spaced, Enabled, After, FactoryRuns.Safe;
    if steps != [] {
      StepSpaced(w, steps[0]);
      EveryRunIsSpaced(After(w, steps[0]), steps[1..]);
    }
  }

  /// Main result. In every run, two reproductions of one parent whose sessions have not expired were
  /// created at least three days apart.
  lemma ReproductionsAreSpaced(ttl: nat, depth: nat, fee: Amount, cost: Amount, steps: seq<Step>, i: string, j: string, parent: string)
    requires CanRun(World(FactoryRuns.Initial(ttl, depth), map[], map[], fee, cost), steps)
    requires var w := Run(World(FactoryRuns.Initial(ttl, depth), map[], map[], fee, cost), steps);
      Counts(w, i, parent) && Counts(w, j, parent) && i != j
    ensures var w := Run(World(FactoryRuns.Initial(ttl, depth), map[], map[], fee, cost), steps);
      Apart(w.births[i].createdAt, w.births[j].createdAt)
  {
    var start := World(FactoryRuns.Initial(ttl, depth), map[], map[], fee, cost);
    FactoryRuns.InitialIsSafe(ttl, depth);
    assert Spaced(start);
    hide CanRun, Run, Apart, FactoryRuns.Safe;
    EveryRunIsSpaced(start, steps);
  }

  // ---------------------------------------------------------------- how many there can be

  lemma {:induction false} SpacedTimesAreFew(times: set<Millis>, lo: nat, hi: nat)
    requires forall t :: t in times ==> lo <= t <= hi
    requires forall t, u :: t in times && u in times && t != u ==> Apart(t, u)
    ensures times != {} ==> lo <= hi && (|times| - 1) * REPRODUCTION_COOLDOWN_MS <= hi - lo
    decreases |times|
  {
    if times != {} {
      var t := FindLatest(times);
      var rest := times - {t};
      assert |rest| == |times| - 1;
      if rest != {} {
        var u := FindLatest(rest);
        assert forall x :: x in rest ==> x <= t - REPRODUCTION_COOLDOWN_MS;
        SpacedTimesAreFew(rest, lo, t - REPRODUCTION_COOLDOWN_MS);
      }
    }
  }

  /// In a span of time a parent has at most one counting reproduction, and one more for every three days.
  lemma FewReproductions(w: World, parent: string, lo: nat, hi: nat)
    requires Spaced(w) && forall id :: Counts(w, id, parent) ==> lo <= w.births[id].createdAt <= hi
    ensures BirthTimes(w, parent) != {} ==> (|BirthTimes(w, parent)| - 1) * REPRODUCTION_COOLDOWN_MS <= hi - lo
    ensures forall i, j :: Counts(w, i, parent) && Counts(w, j, parent) && i != j ==> w.births[i].createdAt != w.births[j].createdAt
  {
    var times := BirthTimes(w, parent);
    forall t, u | t in times && u in times && t != u ensures Apart(t, u) {
      var i :| Counts(w, i, parent) && w.births[i].createdAt == t;
      var j :| Counts(w, j, parent) && w.births[j].createdAt == u;
      assert i != j;
    }
    SpacedTimesAreFew(times, lo, hi);
  }
}
