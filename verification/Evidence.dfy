/// A claim's payment evidence: one proof per block, kept in block order, merged scan by scan
/// (backend/factory/src/escrow.rs).
module Evidence {
  import opened Deposits
  import opened Limits
  import opened Options

  datatype Proof = Proof(block: nat, hash: string, amount: nat)

  predicate Ascending(list: seq<Proof>) {
    forall i, j :: 0 <= i < j < |list| ==> list[i].block < list[j].block
  }

  predicate HasBlock(list: seq<Proof>, b: nat) {
    exists p :: p in list && p.block == b
  }

  function Sum(list: seq<Proof>): nat {
    if list == [] then 0 else Sum(list[..|list| - 1]) + list[|list| - 1].amount
  }

  function Members(list: seq<Proof>): set<Proof> {
    set p | p in list
  }

  // ---------------------------------------------------------------- proofs in block order

  predicate Distinct(proofs: set<Proof>) {
    forall p, q :: p in proofs && q in proofs && p.block == q.block ==> p == q
  }

  predicate IsLast(p: Proof, proofs: set<Proof>) {
    p in proofs && forall q :: q in proofs ==> q.block <= p.block
  }

  lemma {:induction false} FindLast(proofs: set<Proof>) returns (last: Proof)
    requires proofs != {}
    ensures IsLast(last, proofs)
  {
    last :| last in proofs;
    if proofs != {last} {
      var other := FindLast(proofs - {last});
      if other.block > last.block {
        last := other;
      }
    }
  }

  lemma SomeLast(proofs: set<Proof>)
    requires proofs != {}
    ensures exists p :: IsLast(p, proofs)
  {
    var _ := FindLast(proofs);
  }

  /// The proofs of a set in block order.
  ghost function Arranged(proofs: set<Proof>): seq<Proof>
    decreases |proofs|
  {
    if proofs == {} then []
    else
      SomeLast(proofs);
      var p :| IsLast(p, proofs);
      Arranged(proofs - {p}) + [p]
  }

  lemma Unfold(proofs: set<Proof>) returns (p: Proof)
    requires proofs != {}
    ensures IsLast(p, proofs) && Arranged(proofs) == Arranged(proofs - {p}) + [p]
    ensures Sum(Arranged(proofs)) == Sum(Arranged(proofs - {p})) + p.amount
  {
    SomeLast(proofs);
    var list := Arranged(proofs);
    p := list[|list| - 1];
    assert list[..|list| - 1] == Arranged(proofs - {p});
  }

  lemma AppendLast(list: seq<Proof>, p: Proof)
    requires Ascending(list) && forall q :: q in Members(list) ==> q.block < p.block
    ensures Ascending(list + [p]) && Members(list + [p]) == Members(list) + {p}
  {
    forall i | 0 <= i < |list| ensures list[i].block < p.block {
      assert list[i] in Members(list);
    }
  }

  lemma {:induction false} ArrangedFacts(proofs: set<Proof>)
    requires Distinct(proofs)
    ensures Ascending(Arranged(proofs)) && Members(Arranged(proofs)) == proofs
    decreases |proofs|
  {
    if proofs != {} {
      var p := Unfold(proofs);
      ArrangedFacts(proofs - {p});
      AppendLast(Arranged(proofs - {p}), p);
    }
  }

  lemma {:induction false} AscendingIsUnique(x: seq<Proof>, y: seq<Proof>)
    requires Ascending(x) && Ascending(y) && Members(x) == Members(y)
    ensures x == y
    decreases |x|
  {
    if x == [] || y == [] {
      NoMembers(x);
      NoMembers(y);
    } else {
      var p, q := x[|x| - 1], y[|y| - 1];
      assert p in Members(x) && q in Members(y);
      assert p in y && q in x;
      AscendingFront(x);
      AscendingFront(y);
      AscendingIsUnique(x[..|x| - 1], y[..|y| - 1]);
    }
  }

  lemma NoMembers(list: seq<Proof>)
    ensures Members(list) == {} ==> list == []
  {
    if list != [] {
      assert list[0] in Members(list);
    }
  }

  lemma AscendingFront(list: seq<Proof>)
    requires Ascending(list) && list != []
    ensures Members(list[..|list| - 1]) == Members(list) - {list[|list| - 1]}
    ensures IsLast(list[|list| - 1], Members(list))
  {
    var front, p := list[..|list| - 1], list[|list| - 1];
    assert list == front + [p];
  }

  lemma {:induction false} AscendingIsDistinct(list: seq<Proof>)
    requires Ascending(list)
    ensures Distinct(Members(list)) && Arranged(Members(list)) == list
  {
    forall p, q | p in list && q in list && p.block == q.block ensures p == q {
      var i :| 0 <= i < |list| && list[i] == p;
      var j :| 0 <= j < |list| && list[j] == q;
    }
    ArrangedFacts(Members(list));
    AscendingIsUnique(list, Arranged(Members(list)));
  }

  lemma {:induction false} SumPrefix(list: seq<Proof>, n: nat)
    requires n <= |list|
    ensures Sum(list[..n]) <= Sum(list)
    ensures n < |list| ==> Sum(list[..n + 1]) == Sum(list[..n]) + list[n].amount
    decreases |list|
  {
    if n < |list| {
      assert list[..n + 1][..n] == list[..n];
      if n < |list| - 1 {
        SumPrefix(list[..|list| - 1], n);
        assert list[..|list| - 1][..n] == list[..n];
      }
    } else {
      assert list[..n] == list;
    }
  }

  lemma {:induction false} SumWithout(proofs: set<Proof>, p: Proof)
    requires Distinct(proofs) && p in proofs
    ensures Sum(Arranged(proofs)) == Sum(Arranged(proofs - {p})) + p.amount
    decreases |proofs|
  {
    var q := Unfold(proofs);
    if q != p {
      SumWithout(proofs - {q}, p);
      LastStays(proofs - {p}, q);
      assert proofs - {q} - {p} == proofs - {p} - {q};
    }
  }

  lemma LastStays(proofs: set<Proof>, q: Proof)
    requires Distinct(proofs) && IsLast(q, proofs)
    ensures Sum(Arranged(proofs)) == Sum(Arranged(proofs - {q})) + q.amount
  {
    var p := Unfold(proofs);
    assert p == q;
  }

  lemma {:induction false} SumUnion(x: set<Proof>, y: set<Proof>)
    requires Distinct(x + y) && x !! y
    ensures Sum(Arranged(x + y)) == Sum(Arranged(x)) + Sum(Arranged(y))
    decreases |y|
  {
    if y == {} {
      assert x + y == x;
      assert Arranged(y) == [];
    } else {
      var p :| p in y;
      SumUnionStep(x, y, p);
      SumUnion(x, y - {p});
    }
  }

  lemma SumUnionStep(x: set<Proof>, y: set<Proof>, p: Proof)
    requires Distinct(x + y) && x !! y && p in y
    ensures Distinct(x + (y - {p}))
    ensures Sum(Arranged(x + y)) == Sum(Arranged(x + (y - {p}))) + p.amount
    ensures Sum(Arranged(y)) == Sum(Arranged(y - {p})) + p.amount
  {
    SumWithout(x + y, p);
    SumWithout(y, p);
    assert x + y - {p} == x + (y - {p});
  }

  // ---------------------------------------------------------------- merging a scan

  datatype Merged = Merged(evidence: seq<Proof>, total: nat, increment: nat, cursor: Option<nat>)

  /// The scanned blocks for which there is no evidence yet.
  function Fresh(evidence: seq<Proof>, blocks: Blocks): set<Proof> {
    set b | b in blocks && !HasBlock(evidence, b) :: Proof(b, blocks[b].hash, blocks[b].amount)
  }

  predicate HashesKept(evidence: seq<Proof>, blocks: Blocks) {
    forall p :: p in evidence && p.block in blocks ==> SameHash(p.hash, blocks[p.block].hash)
  }

  function Max(a: nat, b: nat): nat {
    if a >= b then a else b
  }

  /// What merging amounts to: known blocks keep their proofs, new ones join in block order and are
  /// added to what was paid; nothing when a known block changed its hash or the sum leaves 128 bits.
  ghost function Merge(paid: nat, cursor: Option<nat>, evidence: seq<Proof>, blocks: Option<Blocks>): Option<Merged> {
    match blocks
    case None => Some(Merged(evidence, paid, 0, cursor))
    case Some(bs) =>
      var added := Arranged(Fresh(evidence, bs));
      if !HashesKept(evidence, bs) || paid + Sum(added) >= U128_LIMIT then None
      else
        Some(Merged(Arranged(Members(evidence) + Fresh(evidence, bs)), paid + Sum(added), Sum(added),
                    if added == [] then cursor else Some(Max(cursor.GetOr(0), added[|added| - 1].block))))
  }

  lemma FreshIsDistinct(evidence: seq<Proof>, blocks: Blocks)
    requires Ascending(evidence)
    ensures Distinct(Fresh(evidence, blocks)) && Distinct(Members(evidence) + Fresh(evidence, blocks))
    ensures Members(evidence) !! Fresh(evidence, blocks)
  {
    AscendingIsDistinct(evidence);
  }

  /// Block numbers in ascending order.
  predicate Sorted(order: seq<nat>) {
    forall i, j :: 0 <= i < j < |order| ==> order[i] < order[j]
  }

  lemma SpliceSorted(order: seq<nat>, at: nat, b: nat)
    requires Sorted(order) && at <= |order|
    requires forall i :: 0 <= i < at ==> order[i] < b
    requires forall i :: at <= i < |order| ==> b < order[i]
    ensures Sorted(order[..at] + [b] + order[at..])
  {
  }

  lemma SpliceMembers<T>(list: seq<T>, at: nat, x: T)
    requires at <= |list|
    ensures forall y :: y in list[..at] + [x] + list[at..] <==> y in list || y == x
  {
    assert list == list[..at] + list[at..];
  }

  method InsertBlock(order: seq<nat>, b: nat) returns (longer: seq<nat>)
    requires Sorted(order) && b !in order
    ensures Sorted(longer) && forall x :: x in longer <==> x in order || x == b
  {
    var at := 0;
    while at < |order| && order[at] < b
      invariant at <= |order|
      invariant forall i :: 0 <= i < at ==> order[i] < b
    {
      at := at + 1;
    }
    SpliceSorted(order, at, b);
    SpliceMembers(order, at, b);
    longer := order[..at] + [b] + order[at..];
  }

  method SortedBlocks(blocks: set<nat>) returns (order: seq<nat>)
    ensures Sorted(order) && forall b :: b in order <==> b in blocks
  {
    order := [];
    var rest := blocks;
    while rest != {}
      invariant rest <= blocks && Sorted(order)
      invariant forall b :: b in order <==> b in blocks && b !in rest
    {
      var b :| b in rest;
      order := InsertBlock(order, b);
      rest := rest - {b};
    }
  }

  lemma MembersSnoc(list: seq<Proof>, p: Proof)
    ensures Members(list + [p]) == Members(list) + {p}
  {
  }

  method InsertByBlock(list: seq<Proof>, p: Proof) returns (longer: seq<Proof>)
    requires Ascending(list) && !HasBlock(list, p.block)
    ensures Ascending(longer) && Members(longer) == Members(list) + {p}
  {
    var at := 0;
    while at < |list| && list[at].block < p.block
      invariant at <= |list|
      invariant forall i :: 0 <= i < at ==> list[i].block < p.block
    {
      at := at + 1;
    }
    assert at < |list| ==> list[at] in list;
    SpliceAscending(list, at, p);
    SpliceMembers(list, at, p);
    longer := list[..at] + [p] + list[at..];
  }

  lemma SpliceAscending(list: seq<Proof>, at: nat, p: Proof)
    requires Ascending(list) && at <= |list|
    requires forall i :: 0 <= i < at ==> list[i].block < p.block
    requires at < |list| ==> p.block < list[at].block
    ensures Ascending(list[..at] + [p] + list[at..])
  {
    forall i | at <= i < |list| ensures p.block < list[i].block {
    }
  }

  /// `sort_by_key` on the block number.
  method SortByBlock(list: seq<Proof>) returns (inOrder: seq<Proof>)
    requires forall i, j :: 0 <= i < j < |list| ==> list[i].block != list[j].block
    ensures inOrder == Arranged(Members(list))
  {
    inOrder := [];
    var n := 0;
    while n < |list|
      invariant n <= |list| && Ascending(inOrder) && Members(inOrder) == Members(list[..n])
    {
      forall p | p in inOrder ensures p.block != list[n].block {
        assert p in Members(list[..n]);
      }
      MembersSnoc(list[..n], list[n]);
      assert list[..n + 1] == list[..n] + [list[n]];
      inOrder := InsertByBlock(inOrder, list[n]);
      n := n + 1;
    }
    assert list[..n] == list;
    AscendingIsDistinct(inOrder);
  }

  function CursorAfter(cursor: Option<nat>, added: seq<Proof>): Option<nat> {
    if added == [] then cursor else Some(Max(cursor.GetOr(0), added[|added| - 1].block))
  }

  method FindBlock(list: seq<Proof>, b: nat) returns (found: Option<Proof>)
    ensures found.None? ==> !HasBlock(list, b)
    ensures found.Some? ==> found.value in list && found.value.block == b
  {
    var i := 0;
    while i < |list|
      invariant i <= |list| && forall j :: 0 <= j < i ==> list[j].block != b
    {
      if list[i].block == b {
        return Some(list[i]);
      }
      i := i + 1;
    }
    found := None;
  }

  /// The new proofs that belong to the blocks seen so far.
  function Taken(evidence: seq<Proof>, blocks: Blocks, seen: seq<nat>): set<Proof> {
    set b | b in seen && b in blocks && !HasBlock(evidence, b) :: Proof(b, blocks[b].hash, blocks[b].amount)
  }

  predicate KeptSoFar(evidence: seq<Proof>, blocks: Blocks, seen: seq<nat>) {
    forall p :: p in evidence && p.block in seen && p.block in blocks ==> SameHash(p.hash, blocks[p.block].hash)
  }

  ghost predicate Pushed(pushed: seq<Proof>, evidence: seq<Proof>, blocks: Blocks, seen: seq<nat>) {
    Ascending(pushed) && Members(pushed) == Taken(evidence, blocks, seen)
  }

  lemma Earlier(order: seq<nat>, i: nat)
    requires Sorted(order) && i < |order|
    ensures order[..i + 1] == order[..i] + [order[i]] && order[i] in order && order[i] !in order[..i]
    ensures forall b :: b in order[..i] ==> b < order[i]
  {
  }

  lemma TakenSnoc(evidence: seq<Proof>, blocks: Blocks, seen: seq<nat>, b: nat)
    requires b in blocks
    ensures HasBlock(evidence, b) ==> Taken(evidence, blocks, seen + [b]) == Taken(evidence, blocks, seen)
    ensures !HasBlock(evidence, b) ==>
      Taken(evidence, blocks, seen + [b]) == Taken(evidence, blocks, seen) + {Proof(b, blocks[b].hash, blocks[b].amount)}
  {
  }

  lemma PushKnown(pushed: seq<Proof>, evidence: seq<Proof>, blocks: Blocks, order: seq<nat>, i: nat)
    requires Ascending(evidence) && Sorted(order) && i < |order| && order[i] in blocks
    requires Pushed(pushed, evidence, blocks, order[..i]) && KeptSoFar(evidence, blocks, order[..i])
    requires exists p :: p in evidence && p.block == order[i] && SameHash(p.hash, blocks[order[i]].hash)
    ensures Pushed(pushed, evidence, blocks, order[..i + 1]) && KeptSoFar(evidence, blocks, order[..i + 1])
  {
    Earlier(order, i);
    TakenSnoc(evidence, blocks, order[..i], order[i]);
    AscendingIsDistinct(evidence);
    var known :| known in evidence && known.block == order[i] && SameHash(known.hash, blocks[order[i]].hash);
    forall p | p in evidence && p.block in order[..i + 1] && p.block in blocks
      ensures SameHash(p.hash, blocks[p.block].hash)
    {
      if p.block == order[i] {
        assert p in Members(evidence) && known in Members(evidence);
      }
    }
  }

  lemma PushNew(pushed: seq<Proof>, evidence: seq<Proof>, blocks: Blocks, order: seq<nat>, i: nat)
    requires Sorted(order) && i < |order| && order[i] in blocks && !HasBlock(evidence, order[i])
    requires Pushed(pushed, evidence, blocks, order[..i]) && KeptSoFar(evidence, blocks, order[..i])
    ensures var longer := pushed + [Proof(order[i], blocks[order[i]].hash, blocks[order[i]].amount)];
      Pushed(longer, evidence, blocks, order[..i + 1]) && Sum(longer) == Sum(pushed) + blocks[order[i]].amount
    ensures KeptSoFar(evidence, blocks, order[..i + 1])
    ensures pushed != [] ==> pushed[|pushed| - 1].block < order[i]
  {
    var p := Proof(order[i], blocks[order[i]].hash, blocks[order[i]].amount);
    Earlier(order, i);
    TakenSnoc(evidence, blocks, order[..i], order[i]);
    AppendLast(pushed, p);
    assert (pushed + [p])[..|pushed|] == pushed;
    assert pushed != [] ==> pushed[|pushed| - 1] in Members(pushed);
  }

  lemma TakenIsPart(pushed: seq<Proof>, evidence: seq<Proof>, blocks: Blocks, seen: seq<nat>)
    requires Ascending(evidence) && Pushed(pushed, evidence, blocks, seen)
    ensures Sum(pushed) <= Sum(Arranged(Fresh(evidence, blocks)))
  {
    var part, whole := Members(pushed), Fresh(evidence, blocks);
    FreshIsDistinct(evidence, blocks);
    assert part + (whole - part) == whole;
    SumUnion(part, whole - part);
    AscendingIsDistinct(pushed);
  }

  lemma AllTaken(pushed: seq<Proof>, evidence: seq<Proof>, blocks: Blocks, seen: seq<nat>)
    requires Pushed(pushed, evidence, blocks, seen) && forall b :: b in blocks ==> b in seen
    ensures Members(pushed) == Fresh(evidence, blocks) && pushed == Arranged(Fresh(evidence, blocks))
  {
    AscendingIsDistinct(pushed);
    assert Taken(evidence, blocks, seen) == Fresh(evidence, blocks);
  }

  lemma MergeRefuses(paid: nat, cursor: Option<nat>, evidence: seq<Proof>, blocks: Blocks)
    requires !HashesKept(evidence, blocks) || paid + Sum(Arranged(Fresh(evidence, blocks))) >= U128_LIMIT
    ensures Merge(paid, cursor, evidence, Some(blocks)).None?
  {
  }

  lemma NoDuplicates(pushed: seq<Proof>, evidence: seq<Proof>, blocks: Blocks, seen: seq<nat>)
    requires Ascending(evidence) && Pushed(pushed, evidence, blocks, seen)
    ensures var list := evidence + pushed;
      (forall i, j :: 0 <= i < j < |list| ==> list[i].block != list[j].block)
      && Members(list) == Members(evidence) + Members(pushed)
  {
    forall j | 0 <= j < |pushed| ensures !HasBlock(evidence, pushed[j].block) {
      assert pushed[j] in Members(pushed);
    }
    var list := evidence + pushed;
    forall i, j | 0 <= i < j < |list| ensures list[i].block != list[j].block {
      if i < |evidence| <= j {
        assert list[i] in evidence;
      }
    }
  }

  lemma FoundInEvidence(list: seq<Proof>, pushed: seq<Proof>, evidence: seq<Proof>, blocks: Blocks, order: seq<nat>, i: nat)
    requires list == evidence + pushed && Sorted(order) && i < |order|
    requires Pushed(pushed, evidence, blocks, order[..i])
    ensures forall p :: p in list && p.block == order[i] ==> p in evidence
    ensures HasBlock(evidence, order[i]) ==> HasBlock(list, order[i])
  {
    Earlier(order, i);
    forall p | p in list && p.block == order[i] ensures p in evidence {
      assert p in pushed ==> p in Members(pushed);
    }
    assert forall p :: p in evidence ==> p in list;
  }

  /// The loop's variables after the blocks `seen`: `m` holds the evidence pushed so far, unsorted.
  ghost predicate Merging(m: Merged, pushed: seq<Proof>, paid: nat, cursor: Option<nat>, evidence: seq<Proof>,
                          blocks: Blocks, seen: seq<nat>)
  {
    m.evidence == evidence + pushed && m.increment == Sum(pushed) && m.total == paid + m.increment < U128_LIMIT
    && m.cursor == CursorAfter(cursor, pushed)
    && Pushed(pushed, evidence, blocks, seen) && KeptSoFar(evidence, blocks, seen)
  }

  /// One block of the scan. The increment is part of the total, so only the total can leave 128 bits.
  method MergeBlock(m: Merged, ghost pushed: seq<Proof>, ghost paid: nat, ghost cursor: Option<nat>,
                    ghost evidence: seq<Proof>, blocks: Blocks, order: seq<nat>, i: nat)
    returns (r: Result<Merged, DepositError>, ghost longer: seq<Proof>)
    requires Ascending(evidence) && Sorted(order) && i < |order| && order[i] in blocks
    requires Merging(m, pushed, paid, cursor, evidence, blocks, order[..i])
    ensures r.Ok? ==> Merging(r.value, longer, paid, cursor, evidence, blocks, order[..i + 1])
    ensures r.Err? ==> Merge(paid, cursor, evidence, Some(blocks)).None?
  {
    hide Ascending, Pushed, HasBlock, Merge, Fresh;
    var b := order[i];
    var p := Proof(b, blocks[b].hash, blocks[b].amount);
    longer := pushed;
    FoundInEvidence(m.evidence, pushed, evidence, blocks, order, i);
    var existing := FindBlock(m.evidence, b);
    if existing.Some? {
      if !SameHash(existing.value.hash, p.hash) {
        MergeRefuses(paid, cursor, evidence, blocks);
        return Err(HashChanged), longer;
      }
      PushKnown(pushed, evidence, blocks, order, i);
      return Ok(m), longer;
    }
    PushNew(pushed, evidence, blocks, order, i);
    longer := pushed + [p];
    TakenIsPart(longer, evidence, blocks, order[..i + 1]);
    if m.total + p.amount >= U128_LIMIT {
      MergeRefuses(paid, cursor, evidence, blocks);
      return Err(InvalidAmount), longer;
    }
    assert (evidence + pushed) + [p] == evidence + longer;
    r := Ok(Merged(m.evidence + [p], m.total + p.amount, m.increment + p.amount, Some(Max(m.cursor.GetOr(0), b))));
  }

  lemma MergingDone(m: Merged, pushed: seq<Proof>, paid: nat, cursor: Option<nat>, evidence: seq<Proof>,
                    blocks: Blocks, order: seq<nat>)
    requires Ascending(evidence) && forall b :: b in blocks ==> b in order
    requires Merging(m, pushed, paid, cursor, evidence, blocks, order)
    ensures Merge(paid, cursor, evidence, Some(blocks)) == Some(m.(evidence := Arranged(Members(m.evidence))))
    ensures forall i, j :: 0 <= i < j < |m.evidence| ==> m.evidence[i].block != m.evidence[j].block
  {
    hide Ascending, Pushed, HasBlock, Fresh;
    AllTaken(pushed, evidence, blocks, order);
    NoDuplicates(pushed, evidence, blocks, order);
    assert HashesKept(evidence, blocks);
  }

  /// `merged_claim_evidence_for_session`
  method MergedClaimEvidence(paid: nat, cursor: Option<nat>, evidence: seq<Proof>, blocks: Option<Blocks>)
    returns (r: Result<Merged, DepositError>)
    requires paid < U128_LIMIT && Ascending(evidence)
    ensures r.Ok? <==> Merge(paid, cursor, evidence, blocks).Some?
    ensures r.Ok? ==> r.value == Merge(paid, cursor, evidence, blocks).value
  {
    if blocks.None? {
      return Ok(Merged(evidence, paid, 0, cursor));
    }
    var order := SortedBlocks(blocks.value.Keys);
    var m := Merged(evidence, paid, 0, cursor);
    ghost var pushed: seq<Proof> := [];
    assert evidence + pushed == evidence;
    var i := 0;
    while i < |order|
      invariant i <= |order| && Merging(m, pushed, paid, cursor, evidence, blocks.value, order[..i])
    {
      assert order[i] in order;
      var next, longer := MergeBlock(m, pushed, paid, cursor, evidence, blocks.value, order, i);
      if next.Err? {
        return next;
      }
      m, pushed := next.value, longer;
      i := i + 1;
    }
    assert order[..i] == order;
    MergingDone(m, pushed, paid, cursor, evidence, blocks.value, order);
    var inOrder := SortByBlock(m.evidence);
    r := Ok(m.(evidence := inOrder));
  }
}
