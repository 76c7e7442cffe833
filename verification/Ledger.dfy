/// A claim's evidence is an exact ledger of its deposits in the blocks scanned so far, in whatever
/// order and however often they were scanned (backend/factory/src/escrow.rs).
module Ledger {
  import opened Deposits
  import opened Evidence
  import opened Limits
  import opened Options

  /// The deposits of a claim in a set of blocks, summed over the chain.
  function SumOver(chain: seq<Log>, c: string, blocks: set<nat>): nat {
    if chain == [] then 0
    else
      var log := chain[|chain| - 1];
      SumOver(chain[..|chain| - 1], c, blocks) + if log.claimId == c && log.block in blocks then Amount(log) else 0
  }

  /// Everything ever deposited for a claim.
  function ClaimTotal(chain: seq<Log>, c: string): nat {
    if chain == [] then 0
    else ClaimTotal(chain[..|chain| - 1], c) + if chain[|chain| - 1].claimId == c then Amount(chain[|chain| - 1]) else 0
  }

  /// One proof per scanned block that has deposits, in block order, with that block's total.
  ghost predicate Holds(evidence: seq<Proof>, paid: nat, chain: seq<Log>, c: string, scanned: set<nat>) {
    Ascending(evidence) && paid == Sum(evidence)
    && (forall p :: p in evidence ==>
          p.block in scanned && Appears(chain, c, p.block) && p.amount == Total(chain, c, p.block)
          && SameHash(p.hash, FirstHash(chain, c, p.block)))
    && (forall b :: b in scanned && Appears(chain, c, b) ==> HasBlock(evidence, b))
  }

  lemma {:induction false} SumOverSplit(chain: seq<Log>, c: string, blocks: set<nat>, b: nat)
    requires b !in blocks
    ensures SumOver(chain, c, blocks + {b}) == SumOver(chain, c, blocks) + Total(chain, c, b)
    decreases |chain|
  {
    if chain != [] {
      SumOverSplit(chain[..|chain| - 1], c, blocks, b);
    }
  }

  lemma {:induction false} SumOverAgree(chain: seq<Log>, c: string, x: set<nat>, y: set<nat>)
    requires forall b :: Appears(chain, c, b) ==> (b in x <==> b in y)
    ensures SumOver(chain, c, x) == SumOver(chain, c, y)
    decreases |chain|
  {
    if chain != [] {
      var front, log := chain[..|chain| - 1], chain[|chain| - 1];
      assert chain == front + [log];
      forall b | Appears(front, c, b) ensures b in x <==> b in y {
        Snoc(front, log, c, b);
      }
      SumOverAgree(front, c, x, y);
      if log.claimId == c {
        assert log in chain && At(log, c, log.block);
      }
    }
  }

  lemma {:induction false} SumOverNone(chain: seq<Log>, c: string)
    ensures SumOver(chain, c, {}) == 0
    decreases |chain|
  {
    if chain != [] {
      SumOverNone(chain[..|chain| - 1], c);
    }
  }

  lemma {:induction false} SumOverBound(chain: seq<Log>, c: string, blocks: set<nat>)
    ensures SumOver(chain, c, blocks) <= ClaimTotal(chain, c)
    decreases |chain|
  {
    if chain != [] {
      SumOverBound(chain[..|chain| - 1], c, blocks);
    }
  }

  function BlockSet(list: seq<Proof>): set<nat> {
    set p | p in list :: p.block
  }

  lemma {:induction false} EvidenceSum(evidence: seq<Proof>, chain: seq<Log>, c: string)
    requires Ascending(evidence) && forall p :: p in evidence ==> p.amount == Total(chain, c, p.block)
    ensures Sum(evidence) == SumOver(chain, c, BlockSet(evidence))
    decreases |evidence|
  {
    if evidence == [] {
      assert BlockSet(evidence) == {};
      SumOverNone(chain, c);
    } else {
      var front, p := evidence[..|evidence| - 1], evidence[|evidence| - 1];
      LastBlock(evidence);
      EvidenceSum(front, chain, c);
      SumOverSplit(chain, c, BlockSet(front), p.block);
    }
  }

  lemma LastBlock(evidence: seq<Proof>)
    requires Ascending(evidence) && evidence != []
    ensures var front, p := evidence[..|evidence| - 1], evidence[|evidence| - 1];
      Ascending(front) && p in evidence && p.block !in BlockSet(front) && BlockSet(evidence) == BlockSet(front) + {p.block}
      && forall q :: q in front ==> q in evidence
  {
    var front, p := evidence[..|evidence| - 1], evidence[|evidence| - 1];
    assert evidence == front + [p];
  }

  /// What was recorded as paid is the sum of the claim's deposits in the scanned blocks.
  lemma PaidIsTheSum(evidence: seq<Proof>, paid: nat, chain: seq<Log>, c: string, scanned: set<nat>)
    requires Holds(evidence, paid, chain, c, scanned)
    ensures paid == SumOver(chain, c, scanned)
  {
    EvidenceSum(evidence, chain, c);
    SumOverAgree(chain, c, BlockSet(evidence), scanned);
  }

  // ---------------------------------------------------------------- scanning a window

  function Window(first: nat, last: nat): (blocks: set<nat>)
    ensures forall b :: b in blocks <==> first <= b <= last
    decreases if first <= last then last - first + 1 else 0
  {
    if first > last then {} else {first} + Window(first + 1, last)
  }

  /// The logs a node reports for a filter.
  function Selected(chain: seq<Log>, names: set<string>, first: nat, last: nat): seq<Log> {
    if chain == [] then []
    else
      var log := chain[|chain| - 1];
      Selected(chain[..|chain| - 1], names, first, last)
      + if log.claimId in names && first <= log.block <= last then [log] else []
  }

  /// An honest answer to a filter: the selected logs in any order.
  predicate Answers(logs: seq<Log>, chain: seq<Log>, names: set<string>, first: nat, last: nat) {
    multiset(logs) == multiset(Selected(chain, names, first, last))
  }

  predicate Agrees(logs: seq<Log>, chain: seq<Log>, inside: bool, c: string, b: nat) {
    Total(logs, c, b) == (if inside then Total(chain, c, b) else 0)
    && (Appears(logs, c, b) <==> inside && Appears(chain, c, b))
    && (Appears(logs, c, b) ==> FirstHash(logs, c, b) == FirstHash(chain, c, b))
  }

  lemma AgreesSnoc(logs: seq<Log>, chain: seq<Log>, log: Log, inside: bool, c: string, b: nat)
    requires Agrees(logs, chain, inside, c, b)
    ensures inside ==> Agrees(logs + [log], chain + [log], inside, c, b)
    ensures !inside || !At(log, c, b) ==> Agrees(logs, chain + [log], inside, c, b)
    ensures !inside && !At(log, c, b) ==> Agrees(logs + [log], chain + [log], inside, c, b)
  {
    hide Appears, At;
    Snoc(logs, log, c, b);
    Snoc(chain, log, c, b);
  }

  lemma NothingSelected(names: set<string>, first: nat, last: nat, c: string, b: nat)
    ensures Agrees(Selected([], names, first, last), [], c in names && first <= b <= last, c, b)
  {
  }

  lemma SelectedSnoc(chain: seq<Log>, names: set<string>, first: nat, last: nat)
    requires chain != []
    ensures var front, log := chain[..|chain| - 1], chain[|chain| - 1];
      chain == front + [log]
      && Selected(chain, names, first, last) == (if log.claimId in names && first <= log.block <= last
        then Selected(front, names, first, last) + [log] else Selected(front, names, first, last))
  {
    var kept := Selected(chain[..|chain| - 1], names, first, last);
    assert kept + [] == kept;
  }

  /// Filtering keeps everything about the named claims inside the window, and nothing else.
  lemma {:induction false} SelectedAt(chain: seq<Log>, names: set<string>, first: nat, last: nat, c: string, b: nat)
    ensures Agrees(Selected(chain, names, first, last), chain, c in names && first <= b <= last, c, b)
    decreases |chain|
  {
    if chain == [] {
      NothingSelected(names, first, last, c, b);
    } else {
      hide Agrees, Selected;
      var front, log := chain[..|chain| - 1], chain[|chain| - 1];
      SelectedAt(front, names, first, last, c, b);
      SelectedSnoc(chain, names, first, last);
      AgreesSnoc(Selected(front, names, first, last), front, log, c in names && first <= b <= last, c, b);
      if log.claimId in names && first <= log.block <= last {
        assert (c in names && first <= b <= last) || !At(log, c, b);
      } else {
        Elsewhere(log, c, b, names, first, last);
      }
    }
  }

  lemma Elsewhere(log: Log, c: string, b: nat, names: set<string>, first: nat, last: nat)
    requires !(log.claimId in names && first <= log.block <= last)
    ensures c in names && first <= b <= last ==> !At(log, c, b)
  {
  }

  lemma {:induction false} SelectedIsPart(chain: seq<Log>, names: set<string>, first: nat, last: nat)
    ensures forall x :: x in Selected(chain, names, first, last) ==> x in chain
    decreases |chain|
  {
    if chain != [] {
      SelectedIsPart(chain[..|chain| - 1], names, first, last);
    }
  }

  /// What a scan found for one claim: exactly the window's blocks with deposits, with their totals.
  ghost predicate ScanOf(blocks: Option<Blocks>, chain: seq<Log>, c: string, window: set<nat>) {
    var found := blocks.GetOr(map[]);
    (forall b :: b in found <==> b in window && Appears(chain, c, b))
    && (forall b :: b in found ==> found[b].amount == Total(chain, c, b) && SameHash(found[b].hash, FirstHash(chain, c, b)))
  }

  function ScannedFor(g: Groups, c: string): Option<Blocks> {
    if c in g then Some(g[c]) else None
  }

  /// Grouping an honest answer, in any order, finds exactly the claim's deposits in the window.
  lemma AnswerIsScan(g: Groups, logs: seq<Log>, chain: seq<Log>, names: set<string>, first: nat, last: nat, c: string)
    requires HashesAgree(chain) && Answers(logs, chain, names, first, last) && GroupsOf(g, logs) && c in names
    ensures ScanOf(ScannedFor(g, c), chain, c, Window(first, last))
  {
    var chosen := Selected(chain, names, first, last);
    SelectedIsPart(chain, names, first, last);
    var found := ScannedFor(g, c).GetOr(map[]);
    forall b
      ensures b in found <==> b in Window(first, last) && Appears(chain, c, b)
      ensures b in found ==> found[b].amount == Total(chain, c, b) && SameHash(found[b].hash, FirstHash(chain, c, b))
    {
      TotalsIgnoreOrder(chosen, logs, c, b);
      SelectedAt(chain, names, first, last, c, b);
      if Appears(logs, c, b) {
        assert HasClaim(logs, c);
      }
    }
  }

  /// An honest answer never makes grouping fail, as long as the chain's own totals fit.
  lemma AnswerIsGroupable(logs: seq<Log>, chain: seq<Log>, names: set<string>, first: nat, last: nat)
    requires Groupable(chain) && Answers(logs, chain, names, first, last)
    ensures Groupable(logs)
  {
    var chosen := Selected(chain, names, first, last);
    SelectedIsPart(chain, names, first, last);
    forall x | x in chosen ensures Total(chosen, x.claimId, x.block) < U128_LIMIT {
      SelectedAt(chain, names, first, last, x.claimId, x.block);
    }
    GroupableIgnoresOrder(chosen, logs);
  }

  // ---------------------------------------------------------------- a scan keeps the ledger

  lemma ScanHashesKept(evidence: seq<Proof>, paid: nat, chain: seq<Log>, c: string, scanned: set<nat>,
                       blocks: Blocks, window: set<nat>)
    requires Holds(evidence, paid, chain, c, scanned) && ScanOf(Some(blocks), chain, c, window)
    ensures HashesKept(evidence, blocks)
  {
  }

  lemma ArrangedUnion(evidence: seq<Proof>, blocks: Blocks)
    requires Ascending(evidence)
    ensures var list := Arranged(Members(evidence) + Fresh(evidence, blocks));
      Ascending(list) && Sum(list) == Sum(evidence) + Sum(Arranged(Fresh(evidence, blocks)))
      && forall p :: p in list <==> p in evidence || p in Fresh(evidence, blocks)
  {
    var all := Members(evidence) + Fresh(evidence, blocks);
    FreshIsDistinct(evidence, blocks);
    ArrangedFacts(all);
    SumUnion(Members(evidence), Fresh(evidence, blocks));
    AscendingIsDistinct(evidence);
    forall p ensures p in Arranged(all) <==> p in all {
      assert p in Members(Arranged(all)) <==> p in Arranged(all);
    }
  }

  lemma CandidateHolds(evidence: seq<Proof>, paid: nat, chain: seq<Log>, c: string, scanned: set<nat>,
                       blocks: Blocks, window: set<nat>)
    requires Holds(evidence, paid, chain, c, scanned) && ScanOf(Some(blocks), chain, c, window)
    ensures Holds(Arranged(Members(evidence) + Fresh(evidence, blocks)), paid + Sum(Arranged(Fresh(evidence, blocks))),
                  chain, c, scanned + window)
  {
    hide Ascending, Arranged;
    var list := Arranged(Members(evidence) + Fresh(evidence, blocks));
    ArrangedUnion(evidence, blocks);
    forall b | b in scanned + window && Appears(chain, c, b) ensures HasBlock(list, b) {
      if HasBlock(evidence, b) {
        var p :| p in evidence && p.block == b;
        assert p in list;
      } else {
        var p := Proof(b, blocks[b].hash, blocks[b].amount);
        assert p in list;
      }
    }
  }

  /// Merging what any window holds for a claim, seen before or not, gives the ledger over the union;
  /// it cannot fail while the claim's deposits fit in 128 bits.
  lemma ScanKeepsLedger(evidence: seq<Proof>, paid: nat, cursor: Option<nat>, chain: seq<Log>, c: string,
                        scanned: set<nat>, blocks: Option<Blocks>, window: set<nat>)
    requires Holds(evidence, paid, chain, c, scanned) && ScanOf(blocks, chain, c, window)
    requires ClaimTotal(chain, c) < U128_LIMIT
    ensures var m := Merge(paid, cursor, evidence, blocks);
      m.Some? && Holds(m.value.evidence, m.value.total, chain, c, scanned + window)
      && m.value.total == SumOver(chain, c, scanned + window)
  {
    hide Holds, ScanOf, HashesKept, Arranged;
    if blocks.Some? {
      ScanHashesKept(evidence, paid, chain, c, scanned, blocks.value, window);
      CandidateHolds(evidence, paid, chain, c, scanned, blocks.value, window);
      PaidIsTheSum(Arranged(Members(evidence) + Fresh(evidence, blocks.value)),
                   paid + Sum(Arranged(Fresh(evidence, blocks.value))), chain, c, scanned + window);
      SumOverBound(chain, c, scanned + window);
    } else {
      NothingFound(evidence, paid, chain, c, scanned, window);
      PaidIsTheSum(evidence, paid, chain, c, scanned + window);
    }
  }

  lemma NothingFound(evidence: seq<Proof>, paid: nat, chain: seq<Log>, c: string, scanned: set<nat>, window: set<nat>)
    requires Holds(evidence, paid, chain, c, scanned) && ScanOf(None, chain, c, window)
    ensures Holds(evidence, paid, chain, c, scanned + window)
  {
  }

  /// The scanned blocks determine the ledger: same blocks, same amounts, same sum; hashes up to case.
  lemma {:induction false} LedgerIsDetermined(x: seq<Proof>, y: seq<Proof>, paidX: nat, paidY: nat,
                                              chain: seq<Log>, c: string, scanned: set<nat>)
    requires Holds(x, paidX, chain, c, scanned) && Holds(y, paidY, chain, c, scanned)
    ensures paidX == paidY && |x| == |y|
    ensures forall i :: 0 <= i < |x| ==> x[i].block == y[i].block && x[i].amount == y[i].amount && SameHash(x[i].hash, y[i].hash)
  {
    PaidIsTheSum(x, paidX, chain, c, scanned);
    PaidIsTheSum(y, paidY, chain, c, scanned);
    var a := seq(|x|, i requires 0 <= i < |x| => x[i].block);
    var b := seq(|y|, i requires 0 <= i < |y| => y[i].block);
    forall k ensures k in a <==> k in b {
      BlockListed(x, a, k);
      BlockListed(y, b, k);
      assert HasBlock(x, k) ==> Appears(chain, c, k) && k in scanned;
      assert HasBlock(y, k) ==> Appears(chain, c, k) && k in scanned;
    }
    SortedIsUnique(a, b);
    forall i | 0 <= i < |x|
      ensures x[i].block == y[i].block && x[i].amount == y[i].amount && SameHash(x[i].hash, y[i].hash)
    {
      assert a[i] == b[i] && x[i] in x && y[i] in y;
    }
  }

  lemma BlockListed(list: seq<Proof>, blocks: seq<nat>, k: nat)
    requires |blocks| == |list| && forall i :: 0 <= i < |list| ==> blocks[i] == list[i].block
    ensures k in blocks <==> HasBlock(list, k)
  {
    if HasBlock(list, k) {
      var p :| p in list && p.block == k;
      var i :| 0 <= i < |list| && list[i] == p;
      assert blocks[i] == k;
    }
    if k in blocks {
      var i :| 0 <= i < |blocks| && blocks[i] == k;
      assert list[i] in list;
    }
  }

  lemma {:induction false} SortedIsUnique(a: seq<nat>, b: seq<nat>)
    requires Sorted(a) && Sorted(b) && forall k :: k in a <==> k in b
    ensures a == b
    decreases |a|
  {
    if a == [] || b == [] {
      FirstIn(a);
      FirstIn(b);
    } else {
      assert a[0] in b && b[0] in a;
      assert a[0] in a && b[0] in b;
      forall k ensures k in a[1..] <==> k in b[1..] {
        assert k in a <==> k == a[0] || k in a[1..];
        assert k in b <==> k == b[0] || k in b[1..];
      }
      SortedIsUnique(a[1..], b[1..]);
    }
  }

  lemma FirstIn(a: seq<nat>)
    ensures a == [] || a[0] in a
  {
  }

  // ---------------------------------------------------------------- any run of scans

  datatype Scan = Scan(blocks: Option<Blocks>, window: set<nat>)

  ghost function MergeAll(m: Merged, scans: seq<Scan>): Option<Merged>
    decreases |scans|
  {
    if scans == [] then Some(m)
    else
      match Merge(m.total, m.cursor, m.evidence, scans[0].blocks)
      case None => None
      case Some(next) => MergeAll(next, scans[1..])
  }

  function Union(scans: seq<Scan>): set<nat> {
    if scans == [] then {} else scans[0].window + Union(scans[1..])
  }

  /// Repeated, overlapping and out-of-order windows: after any run of scans the ledger covers
  /// exactly the union of the windows.
  lemma {:induction false} AnyRunOfScans(m: Merged, chain: seq<Log>, c: string, scanned: set<nat>, scans: seq<Scan>)
    requires Holds(m.evidence, m.total, chain, c, scanned) && ClaimTotal(chain, c) < U128_LIMIT
    requires forall i :: 0 <= i < |scans| ==> ScanOf(scans[i].blocks, chain, c, scans[i].window)
    ensures var r := MergeAll(m, scans);
      r.Some? && Holds(r.value.evidence, r.value.total, chain, c, scanned + Union(scans))
      && r.value.total == SumOver(chain, c, scanned + Union(scans))
    decreases |scans|
  {
    if scans == [] {
      PaidIsTheSum(m.evidence, m.total, chain, c, scanned);
      assert scanned + {} == scanned;
    } else {
      ScanKeepsLedger(m.evidence, m.total, m.cursor, chain, c, scanned, scans[0].blocks, scans[0].window);
      AnyRunOfScans(Merge(m.total, m.cursor, m.evidence, scans[0].blocks).value, chain, c, scanned + scans[0].window, scans[1..]);
      assert scanned + scans[0].window + Union(scans[1..]) == scanned + Union(scans);
    }
  }

  /// Two windows in turn leave the ledger that one scan of both would leave.
  lemma TwiceIsOnce(m: Merged, chain: seq<Log>, c: string, scanned: set<nat>, first: Scan, second: Scan, both: Option<Blocks>)
    requires Holds(m.evidence, m.total, chain, c, scanned) && ClaimTotal(chain, c) < U128_LIMIT
    requires ScanOf(first.blocks, chain, c, first.window) && ScanOf(second.blocks, chain, c, second.window)
    requires ScanOf(both, chain, c, first.window + second.window)
    ensures var twice, once := MergeAll(m, [first, second]), Merge(m.total, m.cursor, m.evidence, both);
      twice.Some? && once.Some? && twice.value.total == once.value.total && |twice.value.evidence| == |once.value.evidence|
      && forall i :: 0 <= i < |once.value.evidence| ==>
        twice.value.evidence[i].block == once.value.evidence[i].block
        && twice.value.evidence[i].amount == once.value.evidence[i].amount
  {
    var scans := [first, second];
    AnyRunOfScans(m, chain, c, scanned, scans);
    assert scans[1..] == [second] && [second][1..] == [];
    assert Union([second]) == second.window + Union([]);
    assert Union(scans) == first.window + second.window;
    ScanKeepsLedger(m.evidence, m.total, m.cursor, chain, c, scanned, both, first.window + second.window);
    var twice, once := MergeAll(m, scans).value, Merge(m.total, m.cursor, m.evidence, both).value;
    LedgerIsDetermined(twice.evidence, once.evidence, twice.total, once.total, chain, c, scanned + Union(scans));
  }
}
