/** The quantity of a part number: what was introduced is active, stocked or scrapped, after every command and
    every undo. */
module QuantityBalance {

  import opened Wrappers
  import opened MovementHistory

  // ---------------------------------------------------------------- sums

  ghost function Sum(w: nat -> int, n: nat): int {
    if n == 0 then 0 else Sum(w, n - 1) + w(n - 1)
  }

  lemma {:induction false} SumSame(a: nat -> int, b: nat -> int, n: nat)
    requires forall f :: 0 <= f < n ==> a(f) == b(f)
    ensures Sum(a, n) == Sum(b, n)
  {
    if n > 0 {
      SumSame(a, b, n - 1);
    }
  }

  lemma {:induction false} SumPlus(a: nat -> int, b: nat -> int, c: nat -> int, n: nat)
    requires forall f :: 0 <= f < n ==> c(f) == a(f) + b(f)
    ensures Sum(c, n) == Sum(a, n) + Sum(b, n)
  {
    if n > 0 {
      SumPlus(a, b, c, n - 1);
    }
  }

  /** Two weights that differ at one flow. */
  lemma {:induction false} SumOne(a: nat -> int, b: nat -> int, n: nat, at: nat)
    requires at < n && forall f :: 0 <= f < n && f != at ==> a(f) == b(f)
    ensures Sum(b, n) == Sum(a, n) + b(at) - a(at)
  {
    if at == n - 1 {
      SumSame(a, b, n - 1);
    } else {
      SumOne(a, b, n - 1, at);
    }
  }

  lemma {:induction false} SumZero(a: nat -> int, n: nat, m: nat)
    requires n <= m && forall f :: n <= f < m ==> a(f) == 0
    ensures Sum(a, m) == Sum(a, n)
  {
    if n < m {
      SumZero(a, n, m - 1);
    }
  }

  // ---------------------------------------------------------------- the terms

  /** Every row of a flow carries the quantity of the flow. */
  ghost predicate Quantities(h: History, flows: seq<Flow>) {
    forall k :: 0 <= k < |h.moves| ==>
      h.moves[k].flow < |flows| && h.moves[k].quantity == flows[h.moves[k].flow].quantity
  }

  predicate IsOf(flows: seq<Flow>, part: string, f: nat) {
    f < |flows| && flows[f].part == part
  }

  /** The quantity of the effective rows of some kinds, as the monitoring reads add it up. */
  ghost function Moved(h: History, flows: seq<Flow>, part: string, kinds: set<Kind>, m: nat): int
    requires m <= |h.moves|
  {
    if m == 0 then 0
    else
      Moved(h, flows, part, kinds, m - 1)
      + if CountsFor(h, flows, part, kinds, m - 1) then h.moves[m - 1].quantity else 0
  }

  ghost predicate CountsFor(h: History, flows: seq<Flow>, part: string, kinds: set<Kind>, k: nat) {
    k < |h.moves| && Effective(h.moves, k) && h.moves[k].kind in kinds && IsOf(flows, part, h.moves[k].flow)
  }

  ghost function ActiveOf(flows: seq<Flow>, part: string): nat -> int {
    (f: nat) => if IsOf(flows, part, f) && flows[f].status == Active then flows[f].quantity else 0
  }

  ghost predicate HasKind(h: History, f: nat, kinds: set<Kind>, m: nat) {
    exists k :: 0 <= k < m && k < |h.moves| && h.moves[k].flow == f && h.moves[k].kind in kinds && Effective(h.moves, k)
  }

  ghost function ByFlow(h: History, flows: seq<Flow>, part: string, kinds: set<Kind>, m: nat): nat -> int {
    (f: nat) => if IsOf(flows, part, f) && HasKind(h, f, kinds, m) then flows[f].quantity else 0
  }

  /** At most one row of these kinds counts per flow. */
  ghost predicate OncePerFlow(h: History, kinds: set<Kind>) {
    forall j, k :: (0 <= j < |h.moves| && 0 <= k < |h.moves| && h.moves[j].flow == h.moves[k].flow
                    && Of(h, kinds, j) && Of(h, kinds, k)) ==> j == k
  }

  ghost predicate Of(h: History, kinds: set<Kind>, k: nat) {
    k < |h.moves| && h.moves[k].kind in kinds && Effective(h.moves, k)
  }

  /** Adding up rows is adding up flows. */
  lemma {:induction false} MovedByFlow(h: History, flows: seq<Flow>, part: string, kinds: set<Kind>, m: nat)
    requires m <= |h.moves| && Quantities(h, flows) && OncePerFlow(h, kinds)
    ensures Moved(h, flows, part, kinds, m) == Sum(ByFlow(h, flows, part, kinds, m), |flows|)
  {
    hide Effective;
    if m == 0 {
      SumZero(ByFlow(h, flows, part, kinds, 0), 0, |flows|);
    } else {
      MovedByFlow(h, flows, part, kinds, m - 1);
      MovedStep(h, flows, part, kinds, m);
    }
  }

  lemma MovedStep(h: History, flows: seq<Flow>, part: string, kinds: set<Kind>, m: nat)
    requires 0 < m <= |h.moves| && Quantities(h, flows) && OncePerFlow(h, kinds)
    ensures Sum(ByFlow(h, flows, part, kinds, m), |flows|)
         == Sum(ByFlow(h, flows, part, kinds, m - 1), |flows|)
            + if CountsFor(h, flows, part, kinds, m - 1) then h.moves[m - 1].quantity else 0
  {
    hide Effective, OncePerFlow;
    var a, b := ByFlow(h, flows, part, kinds, m - 1), ByFlow(h, flows, part, kinds, m);
    var at := h.moves[m - 1].flow;
    forall f | 0 <= f < |flows| && f != at ensures a(f) == b(f) {
      OtherKinds(h, f, kinds, m);
    }
    SumOne(a, b, |flows|, at);
    OwnKind(h, kinds, m);
  }

  lemma OtherKinds(h: History, f: nat, kinds: set<Kind>, m: nat)
    requires 0 < m <= |h.moves| && f != h.moves[m - 1].flow
    ensures HasKind(h, f, kinds, m) <==> HasKind(h, f, kinds, m - 1)
  {
    hide Effective;
  }

  lemma OwnKind(h: History, kinds: set<Kind>, m: nat)
    requires 0 < m <= |h.moves| && OncePerFlow(h, kinds)
    ensures Of(h, kinds, m - 1) ==>
              HasKind(h, h.moves[m - 1].flow, kinds, m) && !HasKind(h, h.moves[m - 1].flow, kinds, m - 1)
    ensures !Of(h, kinds, m - 1) ==>
              (HasKind(h, h.moves[m - 1].flow, kinds, m) <==> HasKind(h, h.moves[m - 1].flow, kinds, m - 1))
  {
    hide Effective;
    if Of(h, kinds, m - 1) {
      var f := h.moves[m - 1].flow;
      forall k | 0 <= k < m - 1 && h.moves[k].flow == f && h.moves[k].kind in kinds ensures !Effective(h.moves, k) {
        assert Of(h, kinds, k) ==> k == m - 1;
      }
    }
  }

  // ---------------------------------------------------------------- living and introduced quantity

  /** The quantity of the flow was not passed on by a split or merge. */
  predicate Lives(h: History, f: nat) {
    Last(h, f).Some? && Last(h, f).value < |h.moves| && !Consumes(h.moves, Last(h, f).value)
  }

  predicate IsRoot(h: History, f: nat) {
    First(h.moves, f) < |h.moves| && Effective(h.moves, First(h.moves, f))
        && Introduces(h.moves[First(h.moves, f)].kind)
  }

  function NetAt(h: History, flows: seq<Flow>, part: string, f: nat): int {
    if !IsOf(flows, part, f) then 0
    else (if Lives(h, f) then flows[f].quantity else 0) - (if IsRoot(h, f) then flows[f].quantity else 0)
  }

  ghost function NetOf(h: History, flows: seq<Flow>, part: string): nat -> int {
    (f: nat) => NetAt(h, flows, part, f)
  }

  predicate ConsumedIn(h: History, f: nat, event: nat) {
    exists k :: 0 <= k < |h.moves| && h.moves[k].flow == f && h.moves[k].event == event && Consumes(h.moves, k)
  }

  predicate DescendedIn(h: History, f: nat, event: nat) {
    var c := First(h.moves, f);
    c < |h.moves| && h.moves[c].event == event && IsLineage(h.moves[c].kind)
  }

  function PassedAt(h: History, flows: seq<Flow>, part: string, event: nat, f: nat): int {
    if !IsOf(flows, part, f) then 0
    else (if ConsumedIn(h, f, event) then flows[f].quantity else 0)
         - (if DescendedIn(h, f, event) then flows[f].quantity else 0)
  }

  ghost function PassedOf(h: History, flows: seq<Flow>, part: string, event: nat): nat -> int {
    (f: nat) => PassedAt(h, flows, part, event, f)
  }

  /** Every command passes on exactly the quantity it consumes. */
  ghost predicate Conserves(h: History, flows: seq<Flow>) {
    forall part, event :: Sum(PassedOf(h, flows, part, event), |flows|) == 0
  }

  ghost predicate NetZero(h: History, flows: seq<Flow>) {
    forall part :: Sum(NetOf(h, flows, part), |flows|) == 0
  }

  /** The quantity of all rows of a kind, or of the reversed ones. */
  ghost function Written(h: History, flows: seq<Flow>, part: string, kind: Kind, onlyReversed: bool, m: nat): int
    requires m <= |h.moves|
  {
    if m == 0 then 0
    else
      Written(h, flows, part, kind, onlyReversed, m - 1)
      + if h.moves[m - 1].kind == kind && IsOf(flows, part, h.moves[m - 1].flow)
           && (onlyReversed ==> IsReversed(h.moves, m - 1))
        then h.moves[m - 1].quantity else 0
  }

  /** No received quantity was ever taken back. */
  ghost predicate ReceivedStays(h: History) {
    forall k :: 0 <= k < |h.moves| && h.moves[k].kind == Received ==> !IsReversed(h.moves, k)
  }

  /** What was received, and added and not taken back, is active, stocked or scrapped: every received row is
      added up, reversed or not. */
  ghost predicate Balanced(h: History, flows: seq<Flow>, part: string) {
    Written(h, flows, part, Received, false, |h.moves|) + Written(h, flows, part, Adjusted, false, |h.moves|)
    - Written(h, flows, part, Adjusted, true, |h.moves|)
    == Sum(ActiveOf(flows, part), |flows|) + Moved(h, flows, part, {Stocked}, |h.moves|)
       + Moved(h, flows, part, {Scrapped}, |h.moves|)
  }

  // ---------------------------------------------------------------- the balance

  lemma IntroducedOnce(h: History, n: nat)
    requires Born(h.moves, n)
    ensures OncePerFlow(h, {Received, Adjusted})
  {
    hide Effective, First;
  }

  lemma EndedOnce(h: History, kind: Kind)
    requires OpenUntilLast(h.moves) && Closes(kind)
    ensures OncePerFlow(h, {kind})
  {
    hide Effective, First;
    forall j, k | 0 <= j < |h.moves| && 0 <= k < |h.moves| && h.moves[j].flow == h.moves[k].flow && Of(h, {kind}, j)
                  && Of(h, {kind}, k)
      ensures j == k
    {
      assert Ends(h.moves, j) && Ends(h.moves, k);
    }
  }

  /** One flow: introduced or descended on one side, active, stocked, scrapped or passed on on the other. */
  lemma FlowTerms(h: History, flows: seq<Flow>, part: string, f: nat)
    requires WellFormed(h, |flows|) && Agrees(h, flows) && f < |flows|
    ensures NetAt(h, flows, part, f)
         == ActiveOf(flows, part)(f) + ByFlow(h, flows, part, {Stocked}, |h.moves|)(f)
            + ByFlow(h, flows, part, {Scrapped}, |h.moves|)(f)
            - ByFlow(h, flows, part, {Received, Adjusted}, |h.moves|)(f)
  {
    hide WellFormed, IsConsumed, Position, Newest, First, Last, Effective;
    StatusByLast(h, |flows|, f);
    LastCounts(h, f);
    assert FlowAgrees(h, f, flows[f]);
    ClosedKind(h, |flows|, f, Stocked);
    ClosedKind(h, |flows|, f, Scrapped);
    RootKind(h, |flows|, f);
  }

  lemma ClosedKind(h: History, n: nat, f: nat, kind: Kind)
    requires WellFormed(h, n) && Closes(kind)
    ensures HasKind(h, f, {kind}, |h.moves|) <==>
            Last(h, f).Some? && Last(h, f).value < |h.moves| && h.moves[Last(h, f).value].kind == kind
  {
    hide Position, Newest, First, IsReversed, Last, PlacesKept, NewestFirst, EdgesOk, LineageRecorded, Born,
         WholeCommands, Contiguous, Rows, Effective;
    LastCounts(h, f);
    if k :| 0 <= k < |h.moves| && h.moves[k].flow == f && h.moves[k].kind == kind && Effective(h.moves, k) {
      EndIsLast(h, k);
    }
  }

  lemma RootKind(h: History, n: nat, f: nat)
    requires WellFormed(h, n)
    ensures HasKind(h, f, {Received, Adjusted}, |h.moves|) <==> IsRoot(h, f)
  {
    hide Position, Newest, First, IsReversed, PlacesKept, NewestFirst, EdgesOk, LineageRecorded, OpenUntilLast,
         WholeCommands, Contiguous, Rows, Effective;
    if k :| 0 <= k < |h.moves| && h.moves[k].flow == f
            && h.moves[k].kind in {Received, Adjusted} && Effective(h.moves, k) {
      assert k == First(h.moves, f);
    }
    if IsRoot(h, f) {
      FirstFlow(h, f);
    }
  }

  lemma FirstFlow(h: History, f: nat)
    ensures First(h.moves, f) < |h.moves| ==> h.moves[First(h.moves, f)].flow == f
  {
  }

  /** Introduced, as far as it counts, is active and stocked and scrapped, for every part number. */
  lemma EffectiveBalance(h: History, flows: seq<Flow>, part: string)
    requires WellFormed(h, |flows|) && Agrees(h, flows) && Quantities(h, flows) && NetZero(h, flows)
    ensures Moved(h, flows, part, {Received, Adjusted}, |h.moves|)
         == Sum(ActiveOf(flows, part), |flows|) + Moved(h, flows, part, {Stocked}, |h.moves|)
            + Moved(h, flows, part, {Scrapped}, |h.moves|)
  {
    hide WellFormed, Agrees, Quantities, NetAt, Moved;
    var n := |flows|;
    var introduced, stocked, scrapped := ByFlow(h, flows, part, {Received, Adjusted}, |h.moves|),
      ByFlow(h, flows, part, {Stocked}, |h.moves|), ByFlow(h, flows, part, {Scrapped}, |h.moves|);
    Onces(h, n);
    MovedByFlow(h, flows, part, {Received, Adjusted}, |h.moves|);
    MovedByFlow(h, flows, part, {Stocked}, |h.moves|);
    MovedByFlow(h, flows, part, {Scrapped}, |h.moves|);
    var closed := (f: nat) => stocked(f) + scrapped(f);
    var accounted := (f: nat) => ActiveOf(flows, part)(f) + closed(f);
    SumPlus(stocked, scrapped, closed, n);
    SumPlus(ActiveOf(flows, part), closed, accounted, n);
    forall f | 0 <= f < n ensures accounted(f) == NetOf(h, flows, part)(f) + introduced(f) {
      FlowTerms(h, flows, part, f);
    }
    SumPlus(NetOf(h, flows, part), introduced, accounted, n);
    assert Sum(NetOf(h, flows, part), n) == 0;
  }

  /** Without taken back receipts, the rows that count are all received ones and the added ones not reversed. */
  lemma {:induction false} IntroducedRows(h: History, flows: seq<Flow>, part: string, n: nat, m: nat)
    requires m <= |h.moves| && Rows(h.moves, n) && ReceivedStays(h)
    ensures Moved(h, flows, part, {Received, Adjusted}, m)
         == Written(h, flows, part, Received, false, m) + Written(h, flows, part, Adjusted, false, m)
            - Written(h, flows, part, Adjusted, true, m)
  {
    hide IsReversed;
    if m > 0 {
      IntroducedRows(h, flows, part, n, m - 1);
    }
  }

  lemma BalanceHolds(h: History, flows: seq<Flow>, part: string)
    requires WellFormed(h, |flows|) && Agrees(h, flows) && Quantities(h, flows) && NetZero(h, flows) && ReceivedStays(h)
    ensures Balanced(h, flows, part)
  {
    hide WellFormed, Agrees, Quantities, NetZero, Moved, Written, ReceivedStays;
    PartsOf(h, |flows|);
    EffectiveBalance(h, flows, part);
    IntroducedRows(h, flows, part, |flows|, |h.moves|);
  }

  lemma Onces(h: History, n: nat)
    requires WellFormed(h, n)
    ensures OncePerFlow(h, {Received, Adjusted}) && OncePerFlow(h, {Stocked}) && OncePerFlow(h, {Scrapped})
  {
    IntroducedOnce(h, n);
    EndedOnce(h, Stocked);
    EndedOnce(h, Scrapped);
  }

  // ---------------------------------------------------------------- after a step of a command

  /** Part numbers and quantities never change. */
  ghost predicate SameGoods(flows: seq<Flow>, flows2: seq<Flow>) {
    |flows| <= |flows2|
    && forall f :: 0 <= f < |flows| ==> flows2[f].part == flows[f].part && flows2[f].quantity == flows[f].quantity
  }

  predicate HasLineageRow(h: History, h2: History, f: nat) {
    exists k :: |h.moves| <= k < |h2.moves| && h2.moves[k].flow == f && IsLineage(h2.moves[k].kind)
  }

  /** What the step consumes, less what descends from it. */
  function StepAt(h: History, h2: History, n: nat, flows2: seq<Flow>, part: string, f: nat): int {
    if !IsOf(flows2, part, f) || !HasLineageRow(h, h2, f) then 0
    else if f < n then flows2[f].quantity else 0 - flows2[f].quantity
  }

  ghost function StepOf(h: History, h2: History, n: nat, flows2: seq<Flow>, part: string): nat -> int {
    (f: nat) => StepAt(h, h2, n, flows2, part, f)
  }

  ghost predicate PassesOn(h: History, h2: History, n: nat, flows2: seq<Flow>) {
    forall part :: Sum(StepOf(h, h2, n, flows2, part), |flows2|) == 0
  }

  /** The quantity that lives, flow by flow: consumed flows pass it on, descendants carry it on. */
  lemma StepNet(h: History, h2: History, n: nat, event: nat, flows: seq<Flow>, flows2: seq<Flow>, part: string, f: nat)
    requires WellFormed(h, n) && WellFormed(h2, |flows2|) && Block(h, h2, n, |flows2|, event)
    requires n == |flows| && SameGoods(flows, flows2) && f < |flows2|
    ensures NetAt(h2, flows2, part, f)
         == (if f < n then NetAt(h, flows, part, f) else 0) - StepAt(h, h2, n, flows2, part, f)
  {
    hide WellFormed, Block, Effective, Last, First;
    if HasRow(h, h2, f) {
      var k :| |h.moves| <= k < |h2.moves| && h2.moves[k].flow == f;
      StepTouched(h, h2, n, |flows2|, event, f, k);
    } else {
      assert f < n by { Rowless(h, h2, n, |flows2|, event, f); }
      StepUntouched(h, h2, n, |flows2|, event, f);
    }
  }

  lemma Rowless(h: History, h2: History, n: nat, n2: nat, event: nat, f: nat)
    requires Block(h, h2, n, n2, event) && f < n2 && !HasRow(h, h2, f)
    ensures f < n
  {
  }

  lemma StepUntouched(h: History, h2: History, n: nat, n2: nat, event: nat, f: nat)
    requires WellFormed(h, n) && WellFormed(h2, n2) && Block(h, h2, n, n2, event) && f < n && !HasRow(h, h2, f)
    ensures Lives(h2, f) <==> Lives(h, f)
    ensures IsRoot(h2, f) <==> IsRoot(h, f)
    ensures !HasLineageRow(h, h2, f)
  {
    hide WellFormed, Newest, First, BlockRow, NewEdge, IsReversed, Effective, Consumes;
    PartsOf(h, n);
    SameEffective(h, h2, n);
    FirstIn(h, h2, n, f);
    MovesGrow(h, h2, n);
    NoneBetween(h2, f, false, |h.moves|, |h2.moves|);
    SameNewest(h, h2, n, f, false, |h.moves|);
    LastCounts(h, f);
    if Last(h, f).Some? {
      SameEnds(h, h2, n, Last(h, f).value);
    }
  }

  lemma StepTouched(h: History, h2: History, n: nat, n2: nat, event: nat, f: nat, k: nat)
    requires WellFormed(h, n) && WellFormed(h2, n2) && Block(h, h2, n, n2, event)
    requires |h.moves| <= k < |h2.moves| && h2.moves[k].flow == f
    ensures HasLineageRow(h, h2, f) <==> IsLineage(h2.moves[k].kind)
    ensures Lives(h2, f) <==> !IsLineage(h2.moves[k].kind) || f >= n
    ensures f < n ==> Lives(h, f) && (IsRoot(h2, f) <==> IsRoot(h, f))
    ensures f >= n ==> (IsRoot(h2, f) <==> !IsLineage(h2.moves[k].kind))
  {
    hide WellFormed, Block, Newest, First, Effective, Consumes, Last, ImpliedStatus, StatusAt, IsRoot;
    PartsOf(h, n);
    TouchedStatus(h, h2, n, n2, event, k);
    BlockFirst(h, h2, n, n2, event, k);
    OneRow(h, h2, n, n2, event, k);
    if f < n {
      ActiveLives(h, n, f);
      RootStays(h, h2, n, n2, event, f);
    } else {
      NewRoot(h, h2, n, n2, event, k);
    }
  }

  lemma OneRow(h: History, h2: History, n: nat, n2: nat, event: nat, k: nat)
    requires Block(h, h2, n, n2, event) && |h.moves| <= k < |h2.moves|
    ensures HasLineageRow(h, h2, h2.moves[k].flow) <==> IsLineage(h2.moves[k].kind)
    ensures h2.moves[k].flow < n ==> StatusAt(h, h2.moves[k].flow) == Active
    ensures h2.moves[k].flow >= n ==> (Introduces(h2.moves[k].kind) <==> !IsLineage(h2.moves[k].kind))
  {
    hide StatusAt, StaysAt, HasEdge, NewEdge, CanRecord;
    assert BlockRow(h, h2, n, n2, event, k);
  }

  lemma RootStays(h: History, h2: History, n: nat, n2: nat, event: nat, f: nat)
    requires Rows(h.moves, n) && Born(h.moves, n) && Block(h, h2, n, n2, event) && f < n
    ensures IsRoot(h2, f) <==> IsRoot(h, f)
  {
    hide First, Effective, StatusAt, BlockRow, NewEdge;
    SameEffective(h, h2, n);
    MovesGrow(h, h2, n);
    FirstIn(h, h2, n, f);
  }

  lemma NewRoot(h: History, h2: History, n: nat, n2: nat, event: nat, k: nat)
    requires Rows(h.moves, n) && Born(h.moves, n) && Block(h, h2, n, n2, event) && |h.moves| <= k < |h2.moves|
    requires h2.moves[k].flow >= n
    ensures IsRoot(h2, h2.moves[k].flow) <==> Introduces(h2.moves[k].kind)
  {
    hide First, Effective, StatusAt, BlockRow, NewEdge;
    SameEffective(h, h2, n);
    BlockFirst(h, h2, n, n2, event, k);
  }

  lemma ActiveLives(h: History, n: nat, f: nat)
    requires StatusAt(h, f) == Active
    ensures Lives(h, f)
  {
    hide Newest, First;
    LastCounts(h, f);
  }

  lemma StepPassed(h: History, h2: History, n: nat, event: nat, flows: seq<Flow>, flows2: seq<Flow>, part: string,
                   other: nat, f: nat)
    requires WellFormed(h, n) && Block(h, h2, n, |flows2|, event) && n == |flows| && SameGoods(flows, flows2)
    requires f < |flows2|
    ensures PassedAt(h2, flows2, part, other, f)
         == (if f < n then PassedAt(h, flows, part, other, f) else 0)
            + (if other == event then StepAt(h, h2, n, flows2, part, f) else 0)
  {
    hide WellFormed, Block, First, ConsumedIn, DescendedIn, HasLineageRow;
    StepConsumed(h, h2, n, |flows2|, event, other, f);
    StepDescended(h, h2, n, |flows2|, event, other, f);
  }

  lemma StepDescended(h: History, h2: History, n: nat, n2: nat, event: nat, other: nat, f: nat)
    requires WellFormed(h, n) && Block(h, h2, n, n2, event) && f < n2
    ensures f < n ==> (DescendedIn(h2, f, other) <==> DescendedIn(h, f, other))
    ensures f >= n ==> (DescendedIn(h2, f, other) <==> other == event && HasLineageRow(h, h2, f))
  {
    hide WellFormed, First, NewEdge, IsReversed, Effective, HasEdge, StatusAt, StaysAt;
    PartsOf(h, n);
    MovesGrow(h, h2, n);
    if f < n {
      FirstIn(h, h2, n, f);
    } else {
      assert HasRow(h, h2, f);
      var k :| |h.moves| <= k < |h2.moves| && h2.moves[k].flow == f;
      BlockFirst(h, h2, n, n2, event, k);
      assert BlockRow(h, h2, n, n2, event, k);
    }
  }

  lemma StepConsumed(h: History, h2: History, n: nat, n2: nat, event: nat, other: nat, f: nat)
    requires WellFormed(h, n) && Block(h, h2, n, n2, event) && f < n2
    ensures f < n ==> (ConsumedIn(h2, f, other) <==>
                       ConsumedIn(h, f, other) || (other == event && HasLineageRow(h, h2, f)))
    ensures f < n ==> !(ConsumedIn(h, f, event) && HasLineageRow(h, h2, f))
    ensures f >= n ==> !ConsumedIn(h2, f, other) && !ConsumedIn(h, f, other)
  {
    hide WellFormed, First, NewEdge, IsReversed, Effective, HasEdge, StatusAt, StaysAt, Consumes, Ends;
    PartsOf(h, n);
    MovesGrow(h, h2, n);
    if k :| 0 <= k < |h2.moves| && h2.moves[k].flow == f && h2.moves[k].event == other && Consumes(h2.moves, k) {
      if k < |h.moves| {
        SameEnds(h, h2, n, k);
      } else {
        BlockFirst(h, h2, n, n2, event, k);
        assert BlockRow(h, h2, n, n2, event, k);
      }
    }
    if k :| 0 <= k < |h.moves| && h.moves[k].flow == f && h.moves[k].event == other && Consumes(h.moves, k) {
      SameEnds(h, h2, n, k);
    }
    if k :| |h.moves| <= k < |h2.moves| && h2.moves[k].flow == f && IsLineage(h2.moves[k].kind) {
      BlockFirst(h, h2, n, n2, event, k);
      assert BlockRow(h, h2, n, n2, event, k);
      if f < n {
        NotConsumedBefore(h, h2, n, n2, event, f, k);
      }
    }
  }

  lemma NotConsumedBefore(h: History, h2: History, n: nat, n2: nat, event: nat, f: nat, k: nat)
    requires WellFormed(h, n) && Block(h, h2, n, n2, event) && f < n
    requires |h.moves| <= k < |h2.moves| && h2.moves[k].flow == f
    ensures !ConsumedIn(h, f, event)
  {
    hide First, NewEdge, IsReversed, Effective, HasEdge, StatusAt, StaysAt, EdgesOk, LineageRecorded, PlacesKept,
         NewestFirst, Born, Contiguous;
    assert BlockRow(h, h2, n, n2, event, k);
    forall j | 0 <= j < |h.moves| && h.moves[j].flow == f && h.moves[j].event == event ensures !Consumes(h.moves, j) {
      if IsLineage(h.moves[j].kind) {
        SameCommand(h, n, |h.moves| - 1, j);
        OpenBefore(h, f, j);
      }
    }
  }

  /** A step that passes on what it consumes keeps the balance. */
  lemma StepKeepsBalance(h: History, h2: History, n: nat, event: nat, flows: seq<Flow>, flows2: seq<Flow>)
    requires WellFormed(h, n) && WellFormed(h2, |flows2|) && Block(h, h2, n, |flows2|, event)
    requires n == |flows| && SameGoods(flows, flows2) && PassesOn(h, h2, n, flows2)
    requires NetZero(h, flows) && Conserves(h, flows)
    ensures NetZero(h2, flows2) && Conserves(h2, flows2)
  {
    hide WellFormed, Block, NetAt, PassedAt, StepAt;
    var n2 := |flows2|;
    forall part ensures Sum(NetOf(h2, flows2, part), n2) == 0 {
      var step, after := StepOf(h, h2, n, flows2, part), NetOf(h2, flows2, part);
      var before := (f: nat) => if f < n then NetAt(h, flows, part, f) else 0;
      forall f | 0 <= f < n2 ensures before(f) == after(f) + step(f) {
        StepNet(h, h2, n, event, flows, flows2, part, f);
      }
      SumPlus(after, step, before, n2);
      SumZero(before, n, n2);
      SumSame(before, NetOf(h, flows, part), n);
    }
    forall part, other ensures Sum(PassedOf(h2, flows2, part, other), n2) == 0 {
      var after := PassedOf(h2, flows2, part, other);
      var step := (f: nat) => if other == event then StepAt(h, h2, n, flows2, part, f) else 0;
      var before := (f: nat) => if f < n then PassedAt(h, flows, part, other, f) else 0;
      forall f | 0 <= f < n2 ensures after(f) == before(f) + step(f) {
        StepPassed(h, h2, n, event, flows, flows2, part, other, f);
      }
      SumPlus(before, step, after, n2);
      SumZero(before, n, n2);
      SumSame(before, PassedOf(h, flows, part, other), n);
      if other == event {
        SumSame(step, StepOf(h, h2, n, flows2, part), n2);
      } else {
        SumZero(step, 0, n2);
      }
    }
  }

  // ---------------------------------------------------------------- after an undo

  lemma UndoNet(h: History, h2: History, n: nat, event: nat, undo: nat, flows: seq<Flow>, flows2: seq<Flow>,
      part: string,
                f: nat)
    requires WellFormed(h, n) && WellFormed(h2, n) && Undoable(h, event) && Reverses(h, h2, event, undo)
    requires n == |flows| == |flows2| && SameGoods(flows, flows2) && f < n
    ensures NetAt(h2, flows2, part, f) == NetAt(h, flows, part, f) + PassedAt(h, flows, part, event, f)
  {
    hide WellFormed, Undoable, Reverses, Lives, IsRoot, ConsumedIn, DescendedIn;
    if !Involved(h, event, f) {
      UndoUninvolved(h, h2, n, event, undo, f);
    } else if MadeBy(h, event, f) {
      UndoMade(h, h2, n, event, undo, f);
    } else {
      UndoReopened(h, h2, n, event, undo, f);
    }
  }

  lemma UndoUninvolved(h: History, h2: History, n: nat, event: nat, undo: nat, f: nat)
    requires WellFormed(h, n) && WellFormed(h2, n) && Undoable(h, event) && Reverses(h, h2, event, undo)
    requires f < n && !Involved(h, event, f)
    ensures Lives(h2, f) <==> Lives(h, f)
    ensures IsRoot(h2, f) <==> IsRoot(h, f)
    ensures !ConsumedIn(h, f, event) && !DescendedIn(h, f, event)
  {
    hide WellFormed, Undoable, Reverses, First, Newest, IsReversed, Effective, Consumes;
    PartsOf(h, n);
    UndoGrows(h, h2, event, undo);
    UndoneEffective(h, h2, n, event, undo);
    UninvolvedRows(h, event, f);
    UndoneFirst(h, h2, n, event, undo, f);
    FirstFlow(h, f);
    NewestUntouched(h, h2, n, event, undo, f, false, |h.moves|);
    UndoneNewest(h, h2, n, event, undo, f, false, |h.moves|);
    LastCounts(h, f);
    if Last(h, f).Some? {
      UndoneEnds(h, h2, n, event, undo, Last(h, f).value);
    }
  }

  /** The last row of a touched flow is of the command; it consumes exactly when the command does. */
  lemma TouchedLast(h: History, n: nat, event: nat, f: nat)
    requires WellFormed(h, n) && Undoable(h, event) && Involved(h, event, f)
    ensures Last(h, f).Some? && Last(h, f).value < |h.moves|
    ensures Lives(h, f) <==> !ConsumedIn(h, f, event)
    ensures f < n ==> Effective(h.moves, First(h.moves, f))
  {
    hide Rows, WholeCommands, Contiguous, EdgesOk, LineageRecorded, PlacesKept, NewestFirst, First, Newest, IsReversed,
         Effective, Last, Undoable;
    var j :| 0 <= j < |h.moves| && h.moves[j].event == event && h.moves[j].flow == f;
    UndoableAt(h, event, j);
    LastCounts(h, f);
    BornAt(h, n, j);
    if k :| 0 <= k < |h.moves| && h.moves[k].flow == f && h.moves[k].event == event && Consumes(h.moves, k) {
      UndoableAt(h, event, k);
      EndIsLast(h, k);
    }
  }

  lemma UndoMade(h: History, h2: History, n: nat, event: nat, undo: nat, f: nat)
    requires WellFormed(h, n) && WellFormed(h2, n) && Undoable(h, event) && Reverses(h, h2, event, undo)
    requires f < n && Involved(h, event, f) && MadeBy(h, event, f)
    ensures !Lives(h2, f) && !IsRoot(h2, f)
    ensures Lives(h, f) <==> !ConsumedIn(h, f, event)
    ensures IsRoot(h, f) <==> !DescendedIn(h, f, event)
  {
    hide WellFormed, Undoable, Reverses, First, Newest, IsReversed, Effective, ConsumedIn, Last, IsConsumed;
    PartsOf(h, n);
    MadeIsGone(h, h2, n, event, undo, f);
    UndoneEffective(h, h2, n, event, undo);
    UndoneFirst(h, h2, n, event, undo, f);
    UndoGrows(h, h2, event, undo);
    TouchedLast(h, n, event, f);
    BornKind(h, n, f);
  }

  lemma BornKind(h: History, n: nat, f: nat)
    requires Born(h.moves, n) && f < n
    ensures First(h.moves, f) < |h.moves|
    ensures Introduces(h.moves[First(h.moves, f)].kind) <==> !IsLineage(h.moves[First(h.moves, f)].kind)
  {
  }

  lemma UndoReopened(h: History, h2: History, n: nat, event: nat, undo: nat, f: nat)
    requires WellFormed(h, n) && WellFormed(h2, n) && Undoable(h, event) && Reverses(h, h2, event, undo)
    requires f < n && Involved(h, event, f) && !MadeBy(h, event, f)
    ensures Lives(h2, f) && !DescendedIn(h, f, event)
    ensures Lives(h, f) <==> !ConsumedIn(h, f, event)
    ensures IsRoot(h2, f) <==> IsRoot(h, f)
  {
    hide WellFormed, Undoable, Reverses, First, Newest, IsReversed, Effective, ConsumedIn, Last, Position;
    PartsOf(h, n);
    TouchedIsActive(h, h2, n, event, undo, f);
    StatusByLast(h2, n, f);
    ActiveLives(h2, n, f);
    UndoneEffective(h, h2, n, event, undo);
    UndoneFirst(h, h2, n, event, undo, f);
    UndoGrows(h, h2, event, undo);
    TouchedLast(h, n, event, f);
  }

  lemma UndoPassed(h: History, h2: History, n: nat, event: nat, undo: nat, other: nat, f: nat)
    requires WellFormed(h, n) && Reverses(h, h2, event, undo) && f < n
    ensures ConsumedIn(h2, f, other) <==> ConsumedIn(h, f, other)
    ensures DescendedIn(h2, f, other) <==> DescendedIn(h, f, other)
  {
    hide WellFormed, Reverses, First, Newest, IsReversed, Effective, Consumes, Ends;
    PartsOf(h, n);
    UndoGrows(h, h2, event, undo);
    UndoneFirst(h, h2, n, event, undo, f);
    if k :| 0 <= k < |h2.moves| && h2.moves[k].flow == f && h2.moves[k].event == other && Consumes(h2.moves, k) {
      UndoneEnds(h, h2, n, event, undo, k);
    }
    if k :| 0 <= k < |h.moves| && h.moves[k].flow == f && h.moves[k].event == other && Consumes(h.moves, k) {
      UndoneEnds(h, h2, n, event, undo, k);
    }
  }

  /** An undo keeps the balance: it takes back what the command consumed and what it made. */
  lemma UndoKeepsBalance(h: History, h2: History, n: nat, event: nat, undo: nat, flows: seq<Flow>, flows2: seq<Flow>)
    requires WellFormed(h, n) && WellFormed(h2, n) && Undoable(h, event) && Reverses(h, h2, event, undo)
    requires n == |flows| == |flows2| && SameGoods(flows, flows2) && NetZero(h, flows) && Conserves(h, flows)
    ensures NetZero(h2, flows2) && Conserves(h2, flows2)
  {
    hide WellFormed, Undoable, Reverses, NetAt, ConsumedIn, DescendedIn;
    forall part ensures Sum(NetOf(h2, flows2, part), n) == 0 {
      forall f | 0 <= f < n
        ensures NetOf(h2, flows2, part)(f) == NetOf(h, flows, part)(f) + PassedOf(h, flows, part, event)(f)
      {
        UndoNet(h, h2, n, event, undo, flows, flows2, part, f);
      }
      SumPlus(NetOf(h, flows, part), PassedOf(h, flows, part, event), NetOf(h2, flows2, part), n);
    }
    forall part, other ensures Sum(PassedOf(h2, flows2, part, other), n) == 0 {
      forall f | 0 <= f < n ensures PassedOf(h, flows, part, other)(f) == PassedOf(h2, flows2, part, other)(f) {
        UndoPassed(h, h2, n, event, undo, other, f);
      }
      SumSame(PassedOf(h, flows, part, other), PassedOf(h2, flows2, part, other), n);
    }
  }
}
