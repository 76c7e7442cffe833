/// Deposit logs, their grouping by claim and block, and merging a scan into a claim's evidence
/// (backend/factory/src/escrow.rs).
module Deposits {
  import opened Limits
  import opened Options
  import Sanitize

  /// A log as the node reported it; `None` is an amount that does not read as a 128-bit integer.
  datatype Log = Log(claimId: string, amount: Option<nat>, block: nat, hash: string)

  datatype BlockTotal = BlockTotal(amount: nat, hash: string)

  type Blocks = map<nat, BlockTotal>
  type Groups = map<string, Blocks>

  datatype DepositError = InvalidAmount | HashInconsistent | HashChanged

  predicate SameHash(a: string, b: string) {
    Sanitize.ToAsciiLowercase(a) == Sanitize.ToAsciiLowercase(b)
  }

  predicate SameLetter(x: char, y: char) {
    x == y || ('A' <= x <= 'Z' && y as int == x as int + 32) || ('A' <= y <= 'Z' && x as int == y as int + 32)
  }

  /// `eq_ignore_ascii_case`: only the case of ASCII letters may differ.
  predicate SameUpToCase(a: string, b: string) {
    |a| == |b| && forall i :: 0 <= i < |a| ==> SameLetter(a[i], b[i])
  }

  lemma SameHashExactly(a: string, b: string)
    ensures SameHash(a, b) <==> SameUpToCase(a, b)
  {
    var x, y := Sanitize.ToAsciiLowercase(a), Sanitize.ToAsciiLowercase(b);
    forall i | 0 <= i < |a| && |a| == |b|
      ensures x[i] == y[i] <==> SameLetter(a[i], b[i])
    {
    }
    if SameHash(a, b) {
      assert |a| == |b| by { assert |x| == |y|; }
      assert forall i :: 0 <= i < |a| ==> x[i] == y[i];
    }
    if SameUpToCase(a, b) {
      assert forall i :: 0 <= i < |a| ==> SameLetter(a[i], b[i]) ==> x[i] == y[i];
    }
  }

  // ---------------------------------------------------------------- what a log list says

  predicate At(log: Log, c: string, b: nat) {
    log.claimId == c && log.block == b
  }

  function Amount(log: Log): nat {
    log.amount.GetOr(0)
  }

  /// The sum of the amounts logged for a claim in a block.
  function Total(logs: seq<Log>, c: string, b: nat): nat {
    if logs == [] then 0
    else Total(logs[..|logs| - 1], c, b) + if At(logs[|logs| - 1], c, b) then Amount(logs[|logs| - 1]) else 0
  }

  predicate Appears(logs: seq<Log>, c: string, b: nat) {
    exists x :: x in logs && At(x, c, b)
  }

  /// The hash under which the block was first reported for the claim.
  function FirstHash(logs: seq<Log>, c: string, b: nat): string {
    if logs == [] then ""
    else if Appears(logs[..|logs| - 1], c, b) then FirstHash(logs[..|logs| - 1], c, b)
    else logs[|logs| - 1].hash
  }

  predicate HashesAgree(logs: seq<Log>) {
    forall x, y :: x in logs && y in logs && At(y, x.claimId, x.block) ==> SameHash(x.hash, y.hash)
  }

  /// Every amount reads, reports of one block agree on its hash, and no total leaves 128 bits.
  predicate Groupable(logs: seq<Log>) {
    (forall x :: x in logs ==> x.amount.Some? && Total(logs, x.claimId, x.block) < U128_LIMIT)
    && HashesAgree(logs)
  }

  predicate HasClaim(logs: seq<Log>, c: string) {
    exists x :: x in logs && x.claimId == c
  }

  /// The grouping holds exactly the claims and blocks that were logged, with their totals.
  ghost predicate GroupsOf(g: Groups, logs: seq<Log>) {
    (forall c :: c in g <==> HasClaim(logs, c))
    && (forall c, b :: c in g ==> (b in g[c] <==> Appears(logs, c, b)))
    && (forall c, b :: c in g && b in g[c] ==> g[c][b] == BlockTotal(Total(logs, c, b), FirstHash(logs, c, b)))
  }

  lemma {:induction false} TotalOfPrefix(logs: seq<Log>, n: nat, c: string, b: nat)
    requires n <= |logs|
    ensures Total(logs[..n], c, b) <= Total(logs, c, b)
    decreases |logs|
  {
    if n < |logs| {
      TotalOfPrefix(logs[..|logs| - 1], n, c, b);
      assert logs[..|logs| - 1][..n] == logs[..n];
    } else {
      assert logs[..n] == logs;
    }
  }

  lemma GroupablePrefix(logs: seq<Log>, n: nat)
    requires n <= |logs| && Groupable(logs)
    ensures Groupable(logs[..n])
  {
    forall x | x in logs[..n] ensures Total(logs[..n], x.claimId, x.block) < U128_LIMIT {
      TotalOfPrefix(logs, n, x.claimId, x.block);
    }
  }

  // ---------------------------------------------------------------- grouping

  lemma Snoc(logs: seq<Log>, log: Log, c: string, b: nat)
    ensures Appears(logs + [log], c, b) <==> Appears(logs, c, b) || At(log, c, b)
    ensures HasClaim(logs + [log], c) <==> HasClaim(logs, c) || log.claimId == c
    ensures Total(logs + [log], c, b) == Total(logs, c, b) + if At(log, c, b) then Amount(log) else 0
    ensures FirstHash(logs + [log], c, b) == if Appears(logs, c, b) then FirstHash(logs, c, b) else log.hash
  {
    var longer := logs + [log];
    assert longer[..|longer| - 1] == logs;
    assert longer[|logs|] == log;
    assert log in longer;
  }

  lemma {:induction false} FirstHashIsReported(logs: seq<Log>, c: string, b: nat) returns (x: Log)
    requires Appears(logs, c, b)
    ensures x in logs && At(x, c, b) && x.hash == FirstHash(logs, c, b)
    decreases |logs|
  {
    var front := logs[..|logs| - 1];
    if Appears(front, c, b) {
      x := FirstHashIsReported(front, c, b);
    } else {
      x :| x in logs && At(x, c, b);
      assert x !in front;
    }
  }

  lemma {:induction false} TotalAbsent(logs: seq<Log>, c: string, b: nat)
    requires !Appears(logs, c, b)
    ensures Total(logs, c, b) == 0
    decreases |logs|
  {
    if logs != [] {
      assert logs[|logs| - 1] in logs;
      TotalAbsent(logs[..|logs| - 1], c, b);
    }
  }

  function BlocksOf(g: Groups, c: string): Blocks {
    if c in g then g[c] else map[]
  }

  function PerBlock(g: Groups, log: Log): BlockTotal {
    var blocks := BlocksOf(g, log.claimId);
    if log.block in blocks then blocks[log.block] else BlockTotal(0, log.hash)
  }

  predicate Accepts(g: Groups, log: Log) {
    log.amount.Some? && SameHash(PerBlock(g, log).hash, log.hash)
    && PerBlock(g, log).amount + log.amount.value < U128_LIMIT
  }

  function Extended(g: Groups, log: Log): Groups {
    var total := PerBlock(g, log);
    g[log.claimId := BlocksOf(g, log.claimId)[log.block := total.(amount := total.amount + Amount(log))]]
  }

  lemma ExtendedAt(g: Groups, logs: seq<Log>, log: Log, c: string, b: nat)
    requires GroupsOf(g, logs) && c in Extended(g, log)
    ensures b in Extended(g, log)[c] <==> Appears(logs + [log], c, b)
    ensures b in Extended(g, log)[c] ==>
      Extended(g, log)[c][b] == BlockTotal(Total(logs + [log], c, b), FirstHash(logs + [log], c, b))
  {
    Snoc(logs, log, c, b);
    if !Appears(logs, c, b) {
      TotalAbsent(logs, c, b);
    }
  }

  lemma ExtendedGroups(g: Groups, logs: seq<Log>, log: Log)
    requires GroupsOf(g, logs)
    ensures GroupsOf(Extended(g, log), logs + [log])
  {
    var h, longer := Extended(g, log), logs + [log];
    forall c ensures c in h <==> HasClaim(longer, c) {
      Snoc(logs, log, c, 0);
    }
    forall c, b | c in h
      ensures b in h[c] <==> Appears(longer, c, b)
      ensures b in h[c] ==> h[c][b] == BlockTotal(Total(longer, c, b), FirstHash(longer, c, b))
    {
      ExtendedAt(g, logs, log, c, b);
    }
  }

  lemma PerBlockIs(g: Groups, logs: seq<Log>, log: Log)
    requires GroupsOf(g, logs)
    ensures PerBlock(g, log) == if Appears(logs, log.claimId, log.block)
      then BlockTotal(Total(logs, log.claimId, log.block), FirstHash(logs, log.claimId, log.block))
      else BlockTotal(0, log.hash)
  {
    if Appears(logs, log.claimId, log.block) {
      assert HasClaim(logs, log.claimId);
    }
  }

  lemma AcceptedKeepsGroupable(g: Groups, logs: seq<Log>, log: Log)
    requires GroupsOf(g, logs) && Groupable(logs) && Accepts(g, log)
    ensures Groupable(logs + [log])
  {
    PerBlockIs(g, logs, log);
    forall x | x in logs && At(log, x.claimId, x.block) ensures SameHash(x.hash, log.hash) {
      var y := FirstHashIsReported(logs, log.claimId, log.block);
    }
    forall x | x in logs + [log] ensures Total(logs + [log], x.claimId, x.block) < U128_LIMIT {
      Snoc(logs, log, x.claimId, x.block);
      if !Appears(logs, log.claimId, log.block) {
        TotalAbsent(logs, log.claimId, log.block);
      }
    }
  }

  lemma GroupableAccepts(g: Groups, logs: seq<Log>, log: Log)
    requires GroupsOf(g, logs) && Groupable(logs + [log])
    ensures Accepts(g, log)
  {
    PerBlockIs(g, logs, log);
    Snoc(logs, log, log.claimId, log.block);
    assert log in logs + [log];
    if Appears(logs, log.claimId, log.block) {
      var y := FirstHashIsReported(logs, log.claimId, log.block);
      assert y in logs + [log];
    } else {
      TotalAbsent(logs, log.claimId, log.block);
    }
  }

  /// One log joins the grouping, or is refused.
  method AddLog(g: Groups, log: Log) returns (r: Result<Groups, DepositError>)
    ensures r.Ok? <==> Accepts(g, log)
    ensures r.Ok? ==> r.value == Extended(g, log)
  {
    if log.amount.None? {
      return Err(InvalidAmount);
    }
    var blocks := if log.claimId in g then g[log.claimId] else map[];
    var perBlock := if log.block in blocks then blocks[log.block] else BlockTotal(0, log.hash);
    if !SameHash(perBlock.hash, log.hash) {
      return Err(HashInconsistent);
    }
    if perBlock.amount + log.amount.value >= U128_LIMIT {
      return Err(InvalidAmount);
    }
    perBlock := perBlock.(amount := perBlock.amount + log.amount.value);
    r := Ok(g[log.claimId := blocks[log.block := perBlock]]);
  }

  function Grouped(logs: seq<Log>): Groups {
    if logs == [] then map[] else Extended(Grouped(logs[..|logs| - 1]), logs[|logs| - 1])
  }

  lemma {:induction false} GroupedGroups(logs: seq<Log>)
    ensures GroupsOf(Grouped(logs), logs)
    decreases |logs|
  {
    if logs != [] {
      GroupedGroups(logs[..|logs| - 1]);
      ExtendedGroups(Grouped(logs[..|logs| - 1]), logs[..|logs| - 1], logs[|logs| - 1]);
      assert logs == logs[..|logs| - 1] + [logs[|logs| - 1]];
    }
  }

  /// The logs determine their grouping.
  lemma GroupsAreUnique(g: Groups, h: Groups, logs: seq<Log>)
    requires GroupsOf(g, logs) && GroupsOf(h, logs)
    ensures g == h
  {
    assert g.Keys == h.Keys;
    forall c | c in g ensures g[c] == h[c] {
      assert g[c].Keys == h[c].Keys;
    }
  }

  /// `amounts_by_claim`: succeeds exactly on groupable logs, with exactly their groups.
  method AmountsByClaim(logs: seq<Log>) returns (r: Result<Groups, DepositError>)
    ensures r.Ok? <==> Groupable(logs)
    ensures r.Ok? ==> GroupsOf(r.value, logs)
  {
    var g: Groups := map[];
    var n := 0;
    while n < |logs|
      invariant n <= |logs| && Groupable(logs[..n]) && GroupsOf(g, logs[..n])
    {
      assert logs[..n + 1] == logs[..n] + [logs[n]];
      var added := AddLog(g, logs[n]);
      if added.Err? {
        if Groupable(logs) {
          GroupablePrefix(logs, n + 1);
          GroupableAccepts(g, logs[..n], logs[n]);
          assert false;
        }
        return added;
      }
      AcceptedKeepsGroupable(g, logs[..n], logs[n]);
      ExtendedGroups(g, logs[..n], logs[n]);
      g := added.value;
      n := n + 1;
    }
    assert logs[..n] == logs;
    r := Ok(g);
  }

  // ---------------------------------------------------------------- the order of logs does not matter

  function Without(logs: seq<Log>, k: nat): seq<Log>
    requires k < |logs|
  {
    logs[..k] + logs[k + 1..]
  }

  lemma {:induction false} TotalWithout(logs: seq<Log>, k: nat, c: string, b: nat)
    requires k < |logs|
    ensures Total(logs, c, b) == Total(Without(logs, k), c, b) + if At(logs[k], c, b) then Amount(logs[k]) else 0
    decreases |logs|
  {
    if k == |logs| - 1 {
      assert Without(logs, k) == logs[..k];
    } else {
      TotalWithout(logs[..|logs| - 1], k, c, b);
      WithoutSnoc(logs, k);
      Snoc(Without(logs[..|logs| - 1], k), logs[|logs| - 1], c, b);
    }
  }

  lemma WithoutSnoc(logs: seq<Log>, k: nat)
    requires k < |logs| - 1
    ensures Without(logs, k) == Without(logs[..|logs| - 1], k) + [logs[|logs| - 1]]
  {
  }

  lemma MultisetWithout(logs: seq<Log>, k: nat)
    requires k < |logs|
    ensures multiset(Without(logs, k)) == multiset(logs) - multiset{logs[k]}
  {
    assert logs == logs[..k] + [logs[k]] + logs[k + 1..];
  }

  lemma SameMembers(x: seq<Log>, y: seq<Log>)
    requires multiset(x) == multiset(y)
    ensures forall e :: e in x <==> e in y
  {
    forall e ensures e in x <==> e in y {
      assert e in multiset(x) <==> e in multiset(y);
    }
  }

  lemma {:induction false} TotalIgnoresOrder(x: seq<Log>, y: seq<Log>, c: string, b: nat)
    requires multiset(x) == multiset(y)
    ensures Total(x, c, b) == Total(y, c, b)
    decreases |x|
  {
    SameMembers(x, y);
    if x == [] {
      assert |multiset(y)| == |y|;
    } else {
      var n := |x| - 1;
      assert x[n] in y;
      var k :| 0 <= k < |y| && y[k] == x[n];
      TotalWithout(y, k, c, b);
      MultisetWithout(x, n);
      MultisetWithout(y, k);
      assert Without(x, n) == x[..n];
      TotalIgnoresOrder(x[..n], Without(y, k), c, b);
    }
  }

  lemma GroupableIgnoresOrder(x: seq<Log>, y: seq<Log>)
    requires multiset(x) == multiset(y) && Groupable(x)
    ensures Groupable(y)
  {
    SameMembers(x, y);
    forall e | e in y ensures Total(y, e.claimId, e.block) < U128_LIMIT {
      TotalIgnoresOrder(x, y, e.claimId, e.block);
    }
  }

  lemma HashIgnoresOrder(x: seq<Log>, y: seq<Log>, c: string, b: nat)
    requires multiset(x) == multiset(y) && HashesAgree(x) && Appears(x, c, b)
    ensures SameHash(FirstHash(x, c, b), FirstHash(y, c, b))
  {
    SameMembers(x, y);
    var u := FirstHashIsReported(x, c, b);
    var v := FirstHashIsReported(y, c, b);
  }

  /// Whether grouping succeeds, and every total it finds, is the same in whatever order the logs
  /// arrive; the recorded hashes differ at most in letter case.
  lemma GroupingIgnoresOrder(x: seq<Log>, y: seq<Log>, g: Groups, h: Groups)
    requires multiset(x) == multiset(y) && Groupable(x) && GroupsOf(g, x) && GroupsOf(h, y)
    ensures Groupable(y) && g.Keys == h.Keys
    ensures forall c, b :: c in g ==> (b in g[c] <==> b in h[c])
    ensures forall c, b :: c in g && b in g[c] ==>
      g[c][b].amount == h[c][b].amount && SameHash(g[c][b].hash, h[c][b].hash)
  {
    GroupableIgnoresOrder(x, y);
    forall c ensures c in g <==> c in h {
      ClaimsIgnoreOrder(x, y, c);
    }
    forall c, b | c in g
      ensures b in g[c] <==> b in h[c]
      ensures b in g[c] ==> g[c][b].amount == h[c][b].amount && SameHash(g[c][b].hash, h[c][b].hash)
    {
      ClaimsIgnoreOrder(x, y, c);
      TotalsIgnoreOrder(x, y, c, b);
    }
  }

  lemma ClaimsIgnoreOrder(x: seq<Log>, y: seq<Log>, c: string)
    requires multiset(x) == multiset(y)
    ensures HasClaim(x, c) <==> HasClaim(y, c)
  {
    SameMembers(x, y);
  }

  lemma TotalsIgnoreOrder(x: seq<Log>, y: seq<Log>, c: string, b: nat)
    requires multiset(x) == multiset(y) && HashesAgree(x)
    ensures Appears(x, c, b) <==> Appears(y, c, b)
    ensures Total(x, c, b) == Total(y, c, b)
    ensures Appears(x, c, b) ==> SameHash(FirstHash(x, c, b), FirstHash(y, c, b))
  {
    SameMembers(x, y);
    TotalIgnoresOrder(x, y, c, b);
    if Appears(x, c, b) {
      HashIgnoresOrder(x, y, c, b);
    }
  }
}
