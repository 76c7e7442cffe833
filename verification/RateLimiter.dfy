/// The gateway's per-address fixed-window rate limiter (apps/rpc-gateway/src/policy.ts).
module RateLimiter {
  import opened Options

  datatype Entry = Entry(count: nat, resetAt: nat)
  datatype Answer = Answer(allowed: bool, remaining: nat, resetAt: nat, retryAfterMs: nat)
  datatype Request = Request(at: nat, ip: string)

  // ---------------------------------------------------------------- a limiter that never prunes

  function Max0(x: int): nat {
    if x > 0 then x else 0
  }

  predicate Live(entry: Option<Entry>, now: nat) {
    entry.Some? && now < entry.value.resetAt
  }

  /// One request against one address's stored entry.
  function CheckEntry(entry: Option<Entry>, now: nat, maxRequests: nat, windowMs: nat): (Entry, Answer) {
    if !Live(entry, now) then
      (Entry(1, now + windowMs), Answer(true, Max0(maxRequests - 1), now + windowMs, 0))
    else
      var e := entry.value;
      if e.count >= maxRequests then (e, Answer(false, 0, e.resetAt, e.resetAt - now))
      else (Entry(e.count + 1, e.resetAt), Answer(true, Max0(maxRequests - (e.count + 1)), e.resetAt, 0))
  }

  function Lookup(entries: map<string, Entry>, ip: string): Option<Entry> {
    if ip in entries then Some(entries[ip]) else None
  }

  /// The entries after a trace, if no entry were ever deleted.
  function EntriesAfter(trace: seq<Request>, maxRequests: nat, windowMs: nat): map<string, Entry> {
    if trace == [] then map[]
    else
      var request := trace[|trace| - 1];
      var before := EntriesAfter(trace[..|trace| - 1], maxRequests, windowMs);
      before[request.ip := CheckEntry(Lookup(before, request.ip), request.at, maxRequests, windowMs).0]
  }

  /// The answer to the last request of a trace, if no entry were ever deleted.
  function LastAnswer(trace: seq<Request>, maxRequests: nat, windowMs: nat): Answer
    requires trace != []
  {
    var request := trace[|trace| - 1];
    var before := EntriesAfter(trace[..|trace| - 1], maxRequests, windowMs);
    CheckEntry(Lookup(before, request.ip), request.at, maxRequests, windowMs).1
  }

  predicate ClockNondecreasing(trace: seq<Request>) {
    forall i, j :: 0 <= i < j < |trace| ==> trace[i].at <= trace[j].at
  }

  /// The stored map may lack only entries that are dead at time `now`.
  ghost predicate PrunedFrom(entries: map<string, Entry>, full: map<string, Entry>, now: nat) {
    && (forall ip :: ip in entries ==> ip in full && entries[ip] == full[ip])
    && (forall ip :: ip in full && ip !in entries ==> full[ip].resetAt <= now)
  }

  lemma CheckKeepsPruned(entries: map<string, Entry>, full: map<string, Entry>, r: Request, maxRequests: nat, windowMs: nat)
    requires PrunedFrom(entries, full, r.at)
    ensures var (e, answer) := CheckEntry(Lookup(full, r.ip), r.at, maxRequests, windowMs);
      CheckEntry(Lookup(entries, r.ip), r.at, maxRequests, windowMs) == (e, answer)
      && PrunedFrom(entries[r.ip := e], full[r.ip := e], r.at)
  {
  }

  /// What the stored entries are after a trace: those of a limiter that never prunes, less dead ones.
  ghost predicate Represents(entries: map<string, Entry>, trace: seq<Request>, maxRequests: nat, windowMs: nat) {
    && ClockNondecreasing(trace)
    && (trace == [] ==> entries == map[])
    && (trace != [] ==> PrunedFrom(entries, EntriesAfter(trace, maxRequests, windowMs), trace[|trace| - 1].at))
  }

  /// Deleting dead entries loses nothing that the next request could see.
  lemma PruningRepresents(entries: map<string, Entry>, kept: map<string, Entry>, trace: seq<Request>, now: nat, maxRequests: nat, windowMs: nat)
    requires Represents(entries, trace, maxRequests, windowMs) && (trace != [] ==> trace[|trace| - 1].at <= now)
    requires kept == entries || kept == map ip | ip in entries && now < entries[ip].resetAt :: entries[ip]
    ensures PrunedFrom(kept, EntriesAfter(trace, maxRequests, windowMs), now)
  {
  }

  lemma ClockGoesBack(trace: seq<Request>, r: Request)
    ensures ClockNondecreasing(trace + [r]) <==> ClockNondecreasing(trace) && (trace != [] ==> trace[|trace| - 1].at <= r.at)
  {
    var longer := trace + [r];
    if ClockNondecreasing(longer) {
      assert forall i :: 0 <= i < |trace| ==> longer[i] == trace[i];
      assert trace != [] ==> longer[|trace| - 1].at <= longer[|trace|].at;
      assert forall i, j :: 0 <= i < j < |trace| ==> longer[i].at <= longer[j].at;
    }
  }

  /// One request, answered from the entries that are left, is answered as if none had been deleted.
  lemma CheckRepresents(kept: map<string, Entry>, trace: seq<Request>, r: Request, maxRequests: nat, windowMs: nat)
    requires ClockNondecreasing(trace) && (trace != [] ==> trace[|trace| - 1].at <= r.at)
    requires PrunedFrom(kept, EntriesAfter(trace, maxRequests, windowMs), r.at)
    ensures var (e, answer) := CheckEntry(Lookup(kept, r.ip), r.at, maxRequests, windowMs);
      Represents(kept[r.ip := e], trace + [r], maxRequests, windowMs) && answer == LastAnswer(trace + [r], maxRequests, windowMs)
  {
    hide CheckEntry, ClockNondecreasing, PrunedFrom, Lookup;
    assert (trace + [r])[..|trace + [r]| - 1] == trace;
    CheckKeepsPruned(kept, EntriesAfter(trace, maxRequests, windowMs), r, maxRequests, windowMs);
    ClockGoesBack(trace, r);
  }

  // ---------------------------------------------------------------- the limiter that prunes

  /// What deleting does: nothing before its time, and then every dead entry goes.
  function Prune(entries: map<string, Entry>, nextPruneAt: nat, now: nat, windowMs: nat): (map<string, Entry>, nat) {
    if now < nextPruneAt then (entries, nextPruneAt)
    else (map ip | ip in entries && now < entries[ip].resetAt :: entries[ip], now + windowMs)
  }

  /// An entry that was deleted shows in the answer exactly when the clock goes back to where it is live.
  lemma DeletedEntryShows(kept: map<string, Entry>, full: map<string, Entry>, r: Request, maxRequests: nat, windowMs: nat)
    requires r.ip in kept ==> r.ip in full && kept[r.ip] == full[r.ip]
    requires r.ip in full ==> full[r.ip].count >= 1
    ensures CheckEntry(Lookup(kept, r.ip), r.at, maxRequests, windowMs).1 == CheckEntry(Lookup(full, r.ip), r.at, maxRequests, windowMs).1
      <==> !(r.ip in full && r.ip !in kept && r.at < full[r.ip].resetAt)
  {
  }

  class IpRateLimiter {
    const maxRequests: nat
    const windowMs: nat
    var entries: map<string, Entry>
    var nextPruneAt: nat
    ghost var trace: seq<Request>

    ghost predicate Valid()
      reads this
    {
      ClockNondecreasing(trace) ==> Represents(entries, trace, maxRequests, windowMs)
    }

    constructor (maxRequests: nat, windowMs: nat)
      ensures Valid() && trace == [] && this.maxRequests == maxRequests && this.windowMs == windowMs
    {
      this.maxRequests := maxRequests;
      this.windowMs := windowMs;
      entries := map[];
      nextPruneAt := 0;
      trace := [];
    }

    /// Deletes dead entries, at most once per window.
    method PruneExpired(currentTime: nat)
      modifies this`entries, this`nextPruneAt
      ensures entries == Prune(old(entries), old(nextPruneAt), currentTime, windowMs).0
      ensures nextPruneAt == Prune(old(entries), old(nextPruneAt), currentTime, windowMs).1
    {
      if currentTime < nextPruneAt {
        return;
      }
      var remaining := entries.Keys;
      ghost var before := entries;
      while remaining != {}
        invariant remaining <= before.Keys
        invariant entries == map ip | ip in before && (ip in remaining || currentTime < before[ip].resetAt) :: before[ip]
        decreases remaining
      {
        var ip :| ip in remaining;
        if entries[ip].resetAt <= currentTime {
          entries := entries - {ip};
        }
        remaining := remaining - {ip};
      }
      nextPruneAt := currentTime + windowMs;
    }

    /// `check`: one entry is written over what pruning leaves. With a clock that has not gone back so
    /// far, the answer is that of a limiter that never prunes.
    method Check(ip: string, currentTime: nat) returns (answer: Answer)
      requires Valid()
      modifies this
      ensures Valid() && trace == old(trace) + [Request(currentTime, ip)]
      ensures var (kept, prune) := Prune(old(entries), old(nextPruneAt), currentTime, windowMs);
        var (next, told) := CheckEntry(Lookup(kept, ip), currentTime, maxRequests, windowMs);
        entries == kept[ip := next] && nextPruneAt == prune && answer == told
      ensures ClockNondecreasing(trace) ==> answer == LastAnswer(trace, maxRequests, windowMs)
    {
      hide Represents, LastAnswer, PrunedFrom, EntriesAfter, ClockNondecreasing;
      ghost var request, before := Request(currentTime, ip), entries;
      PruneExpired(currentTime);
      ghost var kept := entries;
      ClockGoesBack(trace, request);
      if ClockNondecreasing(trace + [request]) {
        PruningRepresents(before, kept, trace, currentTime, maxRequests, windowMs);
        CheckRepresents(kept, trace, request, maxRequests, windowMs);
      }
      trace := trace + [request];
      if ip !in entries || entries[ip].resetAt <= currentTime {
        var next := Entry(1, currentTime + windowMs);
        entries := entries[ip := next];
        return Answer(true, Max0(maxRequests - 1), next.resetAt, 0);
      }
      var entry := entries[ip];
      if entry.count >= maxRequests {
        assert kept[ip := entry] == kept;
        return Answer(false, 0, entry.resetAt, entry.resetAt - currentTime);
      }
      entries := entries[ip := Entry(entry.count + 1, entry.resetAt)];
      return Answer(true, Max0(maxRequests - (entry.count + 1)), entry.resetAt, 0);
    }
  }

  // ---------------------------------------------------------------- how much is admitted

  /// The entry of one address after a trace.
  function EntryAfter(trace: seq<Request>, ip: string, maxRequests: nat, windowMs: nat): Option<Entry> {
    Lookup(EntriesAfter(trace, maxRequests, windowMs), ip)
  }

  /// Admitted requests of `ip` that satisfy `counted`.
  function Admitted(trace: seq<Request>, ip: string, maxRequests: nat, windowMs: nat, counted: (nat, Answer) -> bool): nat {
    if trace == [] then 0
    else
      var last, answer := trace[|trace| - 1], LastAnswer(trace, maxRequests, windowMs);
      Admitted(trace[..|trace| - 1], ip, maxRequests, windowMs, counted)
      + if last.ip == ip && answer.allowed && counted(last.at, answer) then 1 else 0
  }

  function AdmittedBetween(trace: seq<Request>, ip: string, maxRequests: nat, windowMs: nat, lo: nat, hi: nat): nat {
    Admitted(trace, ip, maxRequests, windowMs, (at: nat, answer: Answer) => lo <= at < hi)
  }

  function AdmittedInWindow(trace: seq<Request>, ip: string, maxRequests: nat, windowMs: nat, resetAt: nat): nat {
    Admitted(trace, ip, maxRequests, windowMs, (at: nat, answer: Answer) => answer.resetAt == resetAt)
  }

  lemma ClockOfPrefix(trace: seq<Request>)
    requires trace != [] && ClockNondecreasing(trace)
    ensures ClockNondecreasing(trace[..|trace| - 1])
    ensures |trace| > 1 ==> trace[|trace| - 2].at <= trace[|trace| - 1].at
  {
  }

  /// What a stored entry says about the past: when its window began and how full it is.
  lemma {:induction false} EntryFacts(trace: seq<Request>, ip: string, maxRequests: nat, windowMs: nat)
    requires ClockNondecreasing(trace) && maxRequests >= 1
    ensures var e := EntryAfter(trace, ip, maxRequests, windowMs);
      e.Some? ==> trace != [] && 1 <= e.value.count <= maxRequests
                  && windowMs <= e.value.resetAt <= trace[|trace| - 1].at + windowMs
  {
    if trace != [] {
      ClockOfPrefix(trace);
      EntryFacts(trace[..|trace| - 1], ip, maxRequests, windowMs);
    }
  }

  lemma {:induction false} NothingBefore(trace: seq<Request>, ip: string, maxRequests: nat, windowMs: nat, lo: nat, hi: nat)
    requires ClockNondecreasing(trace) && (trace != [] ==> trace[|trace| - 1].at < lo)
    ensures AdmittedBetween(trace, ip, maxRequests, windowMs, lo, hi) == 0
  {
    if trace != [] {
      ClockOfPrefix(trace);
      NothingBefore(trace[..|trace| - 1], ip, maxRequests, windowMs, lo, hi);
    }
  }

  /// Requests admitted in the interval, by where the current window began: a window that reaches into
  /// the interval was opened by a request before it.
  ghost predicate IntervalBound(e: Option<Entry>, admitted: nat, maxRequests: nat, windowMs: nat, lo: nat) {
    && admitted <= 2 * maxRequests - 1
    && (e.None? ==> admitted == 0)
    && (e.Some? && e.value.resetAt < lo + windowMs ==> admitted <= e.value.count - 1)
    && (e.Some? && e.value.resetAt < lo + 2 * windowMs ==> admitted <= maxRequests - 1 + e.value.count)
  }

  lemma {:induction false} IntervalInvariant(trace: seq<Request>, ip: string, maxRequests: nat, windowMs: nat, lo: nat)
    requires ClockNondecreasing(trace) && maxRequests >= 1
    ensures IntervalBound(EntryAfter(trace, ip, maxRequests, windowMs),
                          AdmittedBetween(trace, ip, maxRequests, windowMs, lo, lo + windowMs), maxRequests, windowMs, lo)
  {
    if trace != [] {
      var before := trace[..|trace| - 1];
      ClockOfPrefix(trace);
      IntervalInvariant(before, ip, maxRequests, windowMs, lo);
      EntryFacts(before, ip, maxRequests, windowMs);
      EntryFacts(trace, ip, maxRequests, windowMs);
      if trace[|trace| - 1].at < lo {
        NothingBefore(trace, ip, maxRequests, windowMs, lo, lo + windowMs);
      }
    }
  }

  /// Any interval as long as a window admits fewer than twice the limit.
  lemma IntervalAdmitsLessThanTwice(trace: seq<Request>, ip: string, maxRequests: nat, windowMs: nat, lo: nat)
    requires ClockNondecreasing(trace) && maxRequests >= 1
    ensures AdmittedBetween(trace, ip, maxRequests, windowMs, lo, lo + windowMs) <= 2 * maxRequests - 1
  {
    IntervalInvariant(trace, ip, maxRequests, windowMs, lo);
  }

  // ---------------------------------------------------------------- when an interval exceeds the limit

  /// `n` requests of one address at one time.
  function Burst(ip: string, at: nat, n: nat): seq<Request> {
    seq(n, i => Request(at, ip))
  }

  lemma ClockOfBurst(trace: seq<Request>, ip: string, at: nat, n: nat)
    requires ClockNondecreasing(trace) && (trace != [] ==> trace[|trace| - 1].at <= at)
    ensures ClockNondecreasing(trace + Burst(ip, at, n))
  {
  }

  /// One more request.
  lemma OneMore(trace: seq<Request>, r: Request, ip: string, maxRequests: nat, windowMs: nat, lo: nat, hi: nat)
    ensures var before, longer := EntryAfter(trace, r.ip, maxRequests, windowMs), trace + [r];
      var (e, answer) := CheckEntry(before, r.at, maxRequests, windowMs);
      EntryAfter(longer, ip, maxRequests, windowMs) == (if r.ip == ip then Some(e) else EntryAfter(trace, ip, maxRequests, windowMs))
      && AdmittedBetween(longer, ip, maxRequests, windowMs, lo, hi)
         == AdmittedBetween(trace, ip, maxRequests, windowMs, lo, hi) + (if r.ip == ip && answer.allowed && lo <= r.at < hi then 1 else 0)
  {
    assert (trace + [r])[..|trace + [r]| - 1] == trace;
  }

  /// A burst that fits in a live window is admitted whole.
  lemma {:induction false} BurstFits(trace: seq<Request>, ip: string, at: nat, n: nat, maxRequests: nat, windowMs: nat, lo: nat, hi: nat)
    requires lo <= at < hi && Live(EntryAfter(trace, ip, maxRequests, windowMs), at)
    requires EntryAfter(trace, ip, maxRequests, windowMs).value.count + n <= maxRequests
    ensures var e := EntryAfter(trace, ip, maxRequests, windowMs).value;
      EntryAfter(trace + Burst(ip, at, n), ip, maxRequests, windowMs) == Some(Entry(e.count + n, e.resetAt))
      && AdmittedBetween(trace + Burst(ip, at, n), ip, maxRequests, windowMs, lo, hi)
         == AdmittedBetween(trace, ip, maxRequests, windowMs, lo, hi) + n
    decreases n
  {
    if n == 0 {
      assert trace + Burst(ip, at, 0) == trace;
    } else {
      BurstFits(trace, ip, at, n - 1, maxRequests, windowMs, lo, hi);
      assert trace + Burst(ip, at, n) == trace + Burst(ip, at, n - 1) + [Request(at, ip)];
      OneMore(trace + Burst(ip, at, n - 1), Request(at, ip), ip, maxRequests, windowMs, lo, hi);
    }
  }

  /// A burst of the whole limit over a dead entry is admitted whole.
  lemma BurstOpens(trace: seq<Request>, ip: string, at: nat, maxRequests: nat, windowMs: nat, lo: nat, hi: nat)
    requires lo <= at < hi && !Live(EntryAfter(trace, ip, maxRequests, windowMs), at) && maxRequests >= 1 && windowMs >= 1
    ensures AdmittedBetween(trace + Burst(ip, at, maxRequests), ip, maxRequests, windowMs, lo, hi)
      == AdmittedBetween(trace, ip, maxRequests, windowMs, lo, hi) + maxRequests
  {
    OneMore(trace, Request(at, ip), ip, maxRequests, windowMs, lo, hi);
    BurstFits(trace + [Request(at, ip)], ip, at, maxRequests - 1, maxRequests, windowMs, lo, hi);
    assert trace + Burst(ip, at, maxRequests) == trace + [Request(at, ip)] + Burst(ip, at, maxRequests - 1);
  }

  /// The bound is reached, for every limit and every window of at least two: a request opens a window,
  /// the rest of the limit follows a moment later, and the whole limit as soon as the window ends.
  lemma TheBoundIsReached(ip: string, maxRequests: nat, windowMs: nat) returns (trace: seq<Request>)
    requires maxRequests >= 1 && windowMs >= 2
    ensures ClockNondecreasing(trace)
    ensures AdmittedBetween(trace, ip, maxRequests, windowMs, 1, 1 + windowMs) == 2 * maxRequests - 1
  {
    hide ClockNondecreasing, EntryAfter, AdmittedBetween;
    var first := [Request(0, ip)];
    OpeningAlone(ip, maxRequests, windowMs);
    BurstFits(first, ip, 1, maxRequests - 1, maxRequests, windowMs, 1, 1 + windowMs);
    var second := first + Burst(ip, 1, maxRequests - 1);
    BurstOpens(second, ip, windowMs, maxRequests, windowMs, 1, 1 + windowMs);
    ClockOfBurst(first, ip, 1, maxRequests - 1);
    ClockOfBurst(second, ip, windowMs, maxRequests);
    trace := second + Burst(ip, windowMs, maxRequests);
  }

  lemma OpeningAlone(ip: string, maxRequests: nat, windowMs: nat)
    ensures var first := [Request(0, ip)];
      ClockNondecreasing(first) && EntryAfter(first, ip, maxRequests, windowMs) == Some(Entry(1, windowMs))
      && AdmittedBetween(first, ip, maxRequests, windowMs, 1, 1 + windowMs) == 0
  {
    OneMore([], Request(0, ip), ip, maxRequests, windowMs, 1, 1 + windowMs);
    assert [] + [Request(0, ip)] == [Request(0, ip)];
  }

  predicate Continues(before: seq<Request>, later: seq<Request>, lo: nat) {
    ClockNondecreasing(before + later) && forall i :: 0 <= i < |later| ==> lo <= later[i].at
  }

  /// Whatever follows from `lo` on, the window-long interval from there admits no more than the limit.
  ghost predicate StaysWithin(before: seq<Request>, ip: string, maxRequests: nat, windowMs: nat, lo: nat) {
    forall later :: Continues(before, later, lo) ==>
      AdmittedBetween(before + later, ip, maxRequests, windowMs, lo, lo + windowMs) <= maxRequests
  }

  /// No window of the address reaches into the interval with room left.
  predicate NoRoomLeft(e: Option<Entry>, lo: nat, maxRequests: nat) {
    !Live(e, lo) || e.value.count == maxRequests
  }

  predicate SingleWindow(start: Option<Entry>, e: Option<Entry>, admitted: nat, maxRequests: nat, windowMs: nat, lo: nat) {
    (e == start && admitted == 0)
    || (e.Some? && e.value.resetAt >= lo + windowMs && admitted <= maxRequests
        && (e.value.resetAt < lo + 2 * windowMs ==> admitted <= e.value.count))
  }

  lemma NothingCounted(e: Option<Entry>, maxRequests: nat, windowMs: nat, lo: nat)
    ensures SingleWindow(e, e, 0, maxRequests, windowMs, lo)
  {
  }

  /// One more request at `at`, as far as the address's entry and count go.
  lemma SingleWindowStep(start: Option<Entry>, e: Option<Entry>, admitted: nat, at: nat, maxRequests: nat, windowMs: nat, lo: nat)
    requires SingleWindow(start, e, admitted, maxRequests, windowMs, lo) && NoRoomLeft(start, lo, maxRequests)
    requires lo <= at && maxRequests >= 1 && (e.Some? ==> e.value.count <= maxRequests && e.value.resetAt <= at + windowMs)
    ensures var (next, answer) := CheckEntry(e, at, maxRequests, windowMs);
      SingleWindow(start, Some(next), admitted + (if answer.allowed && lo <= at < lo + windowMs then 1 else 0), maxRequests, windowMs, lo)
  {
  }

  lemma ClockOfBefore(before: seq<Request>, lo: nat)
    requires Continues(before, [], lo)
    ensures ClockNondecreasing(before)
  {
    assert before + [] == before;
  }

  lemma LastOfLater(before: seq<Request>, later: seq<Request>, lo: nat)
    requires Continues(before, later, lo) && later != []
    ensures var shorter, r := later[..|later| - 1], later[|later| - 1];
      Continues(before, shorter, lo) && before + shorter + [r] == before + later && ClockNondecreasing(before + shorter)
      && lo <= r.at && (before + shorter != [] ==> (before + shorter)[|before + shorter| - 1].at <= r.at)
  {
    var whole := before + later;
    assert whole[..|whole| - 1] == before + later[..|later| - 1];
    ClockOfPrefix(whole);
  }

  lemma {:induction false} NoRoomStaysWithin(before: seq<Request>, later: seq<Request>, ip: string, maxRequests: nat, windowMs: nat, lo: nat)
    requires Continues(before, later, lo) && maxRequests >= 1 && (before != [] ==> before[|before| - 1].at < lo)
    requires NoRoomLeft(EntryAfter(before, ip, maxRequests, windowMs), lo, maxRequests)
    ensures SingleWindow(EntryAfter(before, ip, maxRequests, windowMs), EntryAfter(before + later, ip, maxRequests, windowMs),
                         AdmittedBetween(before + later, ip, maxRequests, windowMs, lo, lo + windowMs), maxRequests, windowMs, lo)
    decreases |later|
  {
    hide SingleWindow, NoRoomLeft, EntryAfter, AdmittedBetween, CheckEntry, Continues, ClockNondecreasing;
    if later == [] {
      assert before + later == before;
      NothingCounted(EntryAfter(before, ip, maxRequests, windowMs), maxRequests, windowMs, lo);
      ClockOfBefore(before, lo);
      NothingBefore(before, ip, maxRequests, windowMs, lo, lo + windowMs);
    } else {
      var shorter, r := later[..|later| - 1], later[|later| - 1];
      LastOfLater(before, later, lo);
      NoRoomStaysWithin(before, shorter, ip, maxRequests, windowMs, lo);
      EntryFacts(before + shorter, ip, maxRequests, windowMs);
      OneMore(before + shorter, r, ip, maxRequests, windowMs, lo, lo + windowMs);
      if r.ip == ip {
        SingleWindowStep(EntryAfter(before, ip, maxRequests, windowMs), EntryAfter(before + shorter, ip, maxRequests, windowMs),
                         AdmittedBetween(before + shorter, ip, maxRequests, windowMs, lo, lo + windowMs), r.at, maxRequests, windowMs, lo);
      }
    }
  }

  /// The request and the burst that break the limit where there is room left.
  lemma RoomBreaksTheLimit(before: seq<Request>, ip: string, maxRequests: nat, windowMs: nat, lo: nat) returns (later: seq<Request>)
    requires ClockNondecreasing(before) && maxRequests >= 1 && (before != [] ==> before[|before| - 1].at < lo)
    requires !NoRoomLeft(EntryAfter(before, ip, maxRequests, windowMs), lo, maxRequests)
    ensures Continues(before, later, lo)
    ensures AdmittedBetween(before + later, ip, maxRequests, windowMs, lo, lo + windowMs) > maxRequests
  {
    var e := EntryAfter(before, ip, maxRequests, windowMs).value;
    EntryFacts(before, ip, maxRequests, windowMs);
    NothingBefore(before, ip, maxRequests, windowMs, lo, lo + windowMs);
    BurstFits(before, ip, lo, 1, maxRequests, windowMs, lo, lo + windowMs);
    var first := before + Burst(ip, lo, 1);
    BurstOpens(first, ip, e.resetAt, maxRequests, windowMs, lo, lo + windowMs);
    ClockOfBurst(before, ip, lo, 1);
    ClockOfBurst(first, ip, e.resetAt, maxRequests);
    later := Burst(ip, lo, 1) + Burst(ip, e.resetAt, maxRequests);
    assert before + later == first + Burst(ip, e.resetAt, maxRequests);
  }

  /// An interval of a window's length stays within the limit, whatever follows, if and only if no
  /// earlier window of the address reaches into it with room left.
  lemma StaysWithinExactly(before: seq<Request>, ip: string, maxRequests: nat, windowMs: nat, lo: nat)
    requires ClockNondecreasing(before) && maxRequests >= 1 && (before != [] ==> before[|before| - 1].at < lo)
    ensures StaysWithin(before, ip, maxRequests, windowMs, lo)
      <==> NoRoomLeft(EntryAfter(before, ip, maxRequests, windowMs), lo, maxRequests)
  {
    if NoRoomLeft(EntryAfter(before, ip, maxRequests, windowMs), lo, maxRequests) {
      forall later | Continues(before, later, lo)
        ensures AdmittedBetween(before + later, ip, maxRequests, windowMs, lo, lo + windowMs) <= maxRequests
      {
        NoRoomStaysWithin(before, later, ip, maxRequests, windowMs, lo);
      }
    } else {
      var later := RoomBreaksTheLimit(before, ip, maxRequests, windowMs, lo);
      assert Continues(before, later, lo);
    }
  }

  /// A window's counter is the number of requests it admitted; later windows have not begun.
  lemma {:induction false} WindowCount(trace: seq<Request>, ip: string, maxRequests: nat, windowMs: nat, resetAt: nat)
    requires ClockNondecreasing(trace) && maxRequests >= 1 && windowMs >= 1
    ensures var e := EntryAfter(trace, ip, maxRequests, windowMs);
      var n := AdmittedInWindow(trace, ip, maxRequests, windowMs, resetAt);
      && n <= maxRequests
      && (e.None? || e.value.resetAt < resetAt ==> n == 0)
      && (e.Some? && e.value.resetAt == resetAt ==> n == e.value.count)
      && (e.Some? && resetAt < e.value.resetAt && n > 0 ==> resetAt + windowMs <= e.value.resetAt)
  {
    if trace != [] {
      ClockOfPrefix(trace);
      WindowCount(trace[..|trace| - 1], ip, maxRequests, windowMs, resetAt);
      EntryFacts(trace[..|trace| - 1], ip, maxRequests, windowMs);
    }
  }

  /// What an answer tells: an admitted request how much is left of its window, a refused one how long the
  /// window still lasts; a window lasts no longer than it should.
  lemma AnswerTells(trace: seq<Request>, maxRequests: nat, windowMs: nat)
    requires trace != [] && ClockNondecreasing(trace) && maxRequests >= 1 && windowMs >= 1
    ensures var last, a := trace[|trace| - 1], LastAnswer(trace, maxRequests, windowMs);
      last.at < a.resetAt <= last.at + windowMs
      && (a.allowed ==> a.retryAfterMs == 0
                        && a.remaining + AdmittedInWindow(trace, last.ip, maxRequests, windowMs, a.resetAt) == maxRequests)
      && (!a.allowed ==> a.remaining == 0 && last.at + a.retryAfterMs == a.resetAt)
  {
    var before, last := trace[..|trace| - 1], trace[|trace| - 1];
    ClockOfPrefix(trace);
    EntryFacts(before, last.ip, maxRequests, windowMs);
    EntryFacts(trace, last.ip, maxRequests, windowMs);
    WindowCount(trace, last.ip, maxRequests, windowMs, LastAnswer(trace, maxRequests, windowMs).resetAt);
  }

  /// A request is refused exactly when a live window of its address has already admitted the limit.
  lemma RefusedExactlyWhenFull(trace: seq<Request>, maxRequests: nat, windowMs: nat)
    requires trace != [] && ClockNondecreasing(trace) && maxRequests >= 1 && windowMs >= 1
    ensures var before, last := trace[..|trace| - 1], trace[|trace| - 1];
      !LastAnswer(trace, maxRequests, windowMs).allowed
      <==> exists resetAt: nat :: last.at < resetAt
             && AdmittedInWindow(before, last.ip, maxRequests, windowMs, resetAt) == maxRequests
  {
    var before, last := trace[..|trace| - 1], trace[|trace| - 1];
    ClockOfPrefix(trace);
    EntryFacts(before, last.ip, maxRequests, windowMs);
    var e := EntryAfter(before, last.ip, maxRequests, windowMs);
    if e.Some? {
      WindowCount(before, last.ip, maxRequests, windowMs, e.value.resetAt);
      assert before[|before| - 1] == trace[|trace| - 2];
    }
    forall resetAt: nat | last.at < resetAt && AdmittedInWindow(before, last.ip, maxRequests, windowMs, resetAt) == maxRequests
      ensures e.Some? && resetAt == e.value.resetAt
    {
      WindowCount(before, last.ip, maxRequests, windowMs, resetAt);
    }
  }
}
