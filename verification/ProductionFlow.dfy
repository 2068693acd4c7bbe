/** The production commands: quantity is introduced, assigned to machines, moved, split, merged, scrapped,
    stocked and put back by an undo, in a ledger that keeps the position of every flow beside its history. */
module ProductionFlow {

  import opened Wrappers
  import opened MovementHistory
  import opened QuantityBalance

  // ---------------------------------------------------------------- the state of a ledger

  /** The stored flows are the replay of a well-formed history in which no quantity is lost or made up. */
  ghost predicate ValidState(h: History, flows: seq<Flow>) {
    && WellFormed(h, |flows|) && Agrees(h, flows) && Quantities(h, flows) && NetZero(h, flows) && Conserves(h, flows)
    && ReceivedStays(h)
  }

  lemma EmptyIsValid()
    ensures ValidState(History([], []), [])
  {
  }

  /** What the command stores for the flow of row `k`. */
  ghost predicate Projected(h: History, h2: History, flows: seq<Flow>, flows2: seq<Flow>, k: nat)
    requires k < |h2.moves| && h2.moves[k].flow < |flows2|
  {
    var row := h2.moves[k];
    var flow := flows2[row.flow];
    && flow.quantity == row.quantity
    && flow.status == (if Closes(row.kind) || (IsLineage(row.kind) && row.flow < |flows|) then StatusAfter(row.kind)
                       else Active)
    && (flow.status != Active ==> flow.machine.None?)
    && (flow.status == Active ==> flow.area == row.area)
    && (Bears(row.kind) ==> flow.machine == row.machine)
    && (flow.status == Active && IsLineage(row.kind) ==>
          forall p: nat :: p < |flows| && BlockParent(h, h2, |flows|, k, p) ==> flow.machine == flows[p].machine)
  }

  /** The step writes what the rows say and leaves every other flow alone. */
  ghost predicate Stores(h: History, h2: History, flows: seq<Flow>, flows2: seq<Flow>) {
    && SameGoods(flows, flows2)
    && (forall f :: 0 <= f < |flows| && !HasRow(h, h2, f) ==> flows2[f] == flows[f])
    && (forall k :: |h.moves| <= k < |h2.moves| ==>
          h2.moves[k].flow < |flows2| && Projected(h, h2, flows, flows2, k))
  }

  lemma TouchedAgrees(h: History, h2: History, event: nat, flows: seq<Flow>, flows2: seq<Flow>, k: nat)
    requires WellFormed(h, |flows|) && Agrees(h, flows) && WellFormed(h2, |flows2|)
    requires Block(h, h2, |flows|, |flows2|, event) && Stores(h, h2, flows, flows2) && |h.moves| <= k < |h2.moves|
    ensures h2.moves[k].flow < |flows2| && FlowAgrees(h2, h2.moves[k].flow, flows2[h2.moves[k].flow])
  {
    hide WellFormed, Block, Newest, First, Position, ImpliedStatus, Last, BlockParent, StatusAt;
    var n := |flows|;
    assert Projected(h, h2, flows, flows2, k);
    BlockExtends(h, h2, n, |flows2|, event);
    TouchedStatus(h, h2, n, |flows2|, event, k);
    if flows2[h2.moves[k].flow].status == Active {
      PartsOf(h, n);
      EdgesOf(h, n);
      BlockPosition(h, h2, n, |flows2|, event, k, |h2.moves|);
      if !Bears(h2.moves[k].kind) {
        DescentAgrees(h, h2, event, flows, flows2, k);
      }
    }
  }

  lemma EdgesOf(h: History, n: nat)
    requires WellFormed(h, n)
    ensures EdgesOk(h, n)
  {
  }

  lemma DescentAgrees(h: History, h2: History, event: nat, flows: seq<Flow>, flows2: seq<Flow>, k: nat)
    requires WellFormed(h, |flows|) && Agrees(h, flows)
    requires Block(h, h2, |flows|, |flows2|, event) && Stores(h, h2, flows, flows2) && |h.moves| <= k < |h2.moves|
    requires h2.moves[k].flow < |flows2| && flows2[h2.moves[k].flow].status == Active && !Bears(h2.moves[k].kind)
    requires h2.moves[k].flow >= |flows|
    requires exists p: nat :: p < |flows| && BlockParent(h, h2, |flows|, k, p)
                              && Position(h2, h2.moves[k].flow, None, |h2.moves|) == Position(h, p, None, |h.moves|)
    ensures var position := Position(h2, h2.moves[k].flow, None, |h2.moves|);
            position.Some? && flows2[h2.moves[k].flow].machine == h2.moves[position.value].machine
  {
    hide WellFormed, Newest, First, Position, Last, NewEdge, HasEdge, LowestParent, ImpliedStatus, StaysAt;
    MovesGrow(h, h2, |flows|);
    assert Projected(h, h2, flows, flows2, k);
    var p: nat :| p < |flows| && BlockParent(h, h2, |flows|, k, p)
                  && Position(h2, h2.moves[k].flow, None, |h2.moves|) == Position(h, p, None, |h.moves|);
    var j :| |h.moves| <= j < k && LineageRow(h2, j, p);
    assert BlockRow(h, h2, |flows|, |flows2|, event, j);
    StatusByLast(h, |flows|, p);
    assert FlowAgrees(h, p, flows[p]);
  }

  lemma QuantitiesKept(h: History, h2: History, event: nat, flows: seq<Flow>, flows2: seq<Flow>)
    requires Quantities(h, flows) && Block(h, h2, |flows|, |flows2|, event) && Stores(h, h2, flows, flows2)
    ensures Quantities(h2, flows2)
  {
    hide BlockRow, NewEdge, CanRecord;
    MovesGrow(h, h2, |flows|);
    forall k | 0 <= k < |h2.moves|
      ensures h2.moves[k].flow < |flows2| && h2.moves[k].quantity == flows2[h2.moves[k].flow].quantity
    {
      if k >= |h.moves| {
        assert Projected(h, h2, flows, flows2, k);
      }
    }
  }

  lemma ReceivedStaysOn(h: History, h2: History, event: nat, flows: seq<Flow>, flows2: seq<Flow>)
    requires Rows(h.moves, |flows|) && ReceivedStays(h) && Block(h, h2, |flows|, |flows2|, event)
    ensures ReceivedStays(h2)
  {
    hide Block, IsReversed;
    BlockExtends(h, h2, |flows|, |flows2|, event);
    MovesGrow(h, h2, |flows|);
    forall k | 0 <= k < |h2.moves| && h2.moves[k].kind == Received ensures !IsReversed(h2.moves, k) {
      SameReversed(h, h2, |flows|, k);
    }
  }

  /** A step of a command that stores what its rows say and passes on what it consumes keeps the ledger valid. */
  lemma StepIsValid(h: History, h2: History, event: nat, flows: seq<Flow>, flows2: seq<Flow>)
    requires ValidState(h, flows) && Block(h, h2, |flows|, |flows2|, event) && Stores(h, h2, flows, flows2)
    requires PassesOn(h, h2, |flows|, flows2)
    ensures ValidState(h2, flows2)
  {
    hide WellFormed, Block, Stores, Quantities, NetZero, Conserves, PassesOn, FlowAgrees;
    BlockKeeps(h, h2, |flows|, |flows2|, event);
    PartsOf(h, |flows|);
    ReceivedStaysOn(h, h2, event, flows, flows2);
    QuantitiesKept(h, h2, event, flows, flows2);
    StoresGoods(h, h2, flows, flows2);
    StepKeepsBalance(h, h2, |flows|, event, flows, flows2);
    forall f | 0 <= f < |flows2| ensures FlowAgrees(h2, f, flows2[f]) {
      if HasRow(h, h2, f) {
        var k :| |h.moves| <= k < |h2.moves| && h2.moves[k].flow == f;
        TouchedAgrees(h, h2, event, flows, flows2, k);
      } else {
        Rowless(h, h2, |flows|, |flows2|, event, f);
        UntouchedAgrees(h, h2, |flows|, |flows2|, event, f, flows[f]);
        Untouched(h, h2, flows, flows2, f);
      }
    }
  }

  lemma StoresGoods(h: History, h2: History, flows: seq<Flow>, flows2: seq<Flow>)
    requires Stores(h, h2, flows, flows2)
    ensures SameGoods(flows, flows2)
  {
  }

  lemma Untouched(h: History, h2: History, flows: seq<Flow>, flows2: seq<Flow>, f: nat)
    requires Stores(h, h2, flows, flows2) && f < |flows| && !HasRow(h, h2, f)
    ensures f < |flows2| && flows2[f] == flows[f]
  {
  }

  // ---------------------------------------------------------------- the steps of commands

  /** One row on an active flow. */
  function Pushed(h: History, row: Movement): History {
    History(h.moves + [row], h.edges)
  }

  predicate IsAction(kind: Kind) {
    kind !in {Received, Adjusted, Split, Merged, Reversed}
  }

  function ActionOn(flow: Flow, row: Movement): Flow {
    if Closes(row.kind) then flow.(status := StatusAfter(row.kind), machine := None, area := row.area)
    else flow.(area := row.area, machine := row.machine)
  }

  lemma PushIsValid(h: History, flows: seq<Flow>, row: Movement)
    requires ValidState(h, flows) && row.flow < |flows| && flows[row.flow].status == Active
    requires IsAction(row.kind) && row.reverses.None? && row.quantity == flows[row.flow].quantity
    requires row.kind == Scrapped ==> row.area == flows[row.flow].area
    requires CanRecord(h.moves, row.event)
    ensures ValidState(Pushed(h, row), flows[row.flow := ActionOn(flows[row.flow], row)])
  {
    hide WellFormed, Quantities, NetZero, Conserves, Agrees, PassesOn, CanRecord;
    var h2, flows2 := Pushed(h, row), flows[row.flow := ActionOn(flows[row.flow], row)];
    PushBlock(h, flows, row);
    NoLineagePasses(h, h2, |flows|, flows2);
    StepIsValid(h, h2, row.event, flows, flows2);
  }

  lemma PushBlock(h: History, flows: seq<Flow>, row: Movement)
    requires WellFormed(h, |flows|) && Agrees(h, flows) && row.flow < |flows| && flows[row.flow].status == Active
    requires IsAction(row.kind) && row.reverses.None? && row.quantity == flows[row.flow].quantity
    requires row.kind == Scrapped ==> row.area == flows[row.flow].area
    requires CanRecord(h.moves, row.event)
    ensures var h2, flows2 := Pushed(h, row), flows[row.flow := ActionOn(flows[row.flow], row)];
            Block(h, h2, |flows|, |flows2|, row.event) && Stores(h, h2, flows, flows2)
  {
    hide WellFormed, Newest, First, Position, CanRecord, IsConsumed;
    var h2 := Pushed(h, row);
    StatusByLast(h, |flows|, row.flow);
    assert FlowAgrees(h, row.flow, flows[row.flow]);
    LastCounts(h, row.flow);
    assert h2.moves[|h.moves|] == row;
  }

  lemma NoLineagePasses(h: History, h2: History, n: nat, flows2: seq<Flow>)
    requires forall k :: |h.moves| <= k < |h2.moves| ==> !IsLineage(h2.moves[k].kind)
    ensures PassesOn(h, h2, n, flows2)
  {
    forall part ensures Sum(StepOf(h, h2, n, flows2, part), |flows2|) == 0 {
      SumZero(StepOf(h, h2, n, flows2, part), 0, |flows2|);
    }
  }

  /** A new flow with the row that introduces it. */
  function IntroducedRow(flows: seq<Flow>, kind: Kind, quantity: nat, area: nat, event: nat): Movement {
    Movement(|flows|, kind, quantity, None, area, None, event, None)
  }

  lemma IntroduceIsValid(h: History, flows: seq<Flow>, part: string, kind: Kind, quantity: nat, area: nat, event: nat)
    requires ValidState(h, flows) && Introduces(kind) && CanRecord(h.moves, event)
    ensures ValidState(Pushed(h, IntroducedRow(flows, kind, quantity, area, event)),
                       flows + [Flow(part, quantity, Active, area, None)])
  {
    hide WellFormed, Quantities, NetZero, Conserves, Agrees, PassesOn, CanRecord;
    var h2, flows2 := Pushed(h, IntroducedRow(flows, kind, quantity, area, event)),
        flows + [Flow(part, quantity, Active, area, None)];
    IntroduceBlock(h, flows, part, kind, quantity, area, event);
    NoLineagePasses(h, h2, |flows|, flows2);
    StepIsValid(h, h2, event, flows, flows2);
  }

  lemma IntroduceBlock(h: History, flows: seq<Flow>, part: string, kind: Kind, quantity: nat, area: nat, event: nat)
    requires WellFormed(h, |flows|) && Introduces(kind) && CanRecord(h.moves, event)
    ensures var h2, flows2 := Pushed(h, IntroducedRow(flows, kind, quantity, area, event)),
              flows + [Flow(part, quantity, Active, area, None)];
            Block(h, h2, |flows|, |flows2|, event) && Stores(h, h2, flows, flows2)
  {
    hide WellFormed, CanRecord, StatusAt;
    var h2 := Pushed(h, IntroducedRow(flows, kind, quantity, area, event));
    assert h2.moves[|h.moves|].flow == |flows|;
    assert HasRow(h, h2, |flows|);
  }

  // ---------------------------------------------------------------- split

  function LineageMove(flow: nat, kind: Kind, quantity: nat, area: nat, event: nat): Movement {
    Movement(flow, kind, quantity, Some(area), area, None, event, None)
  }

  /** The source is consumed, a selected child and a remainder come into being where it was. */
  function SplitHistory(h: History, flows: seq<Flow>, f: nat, selected: nat, event: nat): History
    requires f < |flows| && selected <= flows[f].quantity
  {
    var n, source := |flows|, flows[f];
    History(h.moves + [LineageMove(f, Split, source.quantity, source.area, event),
                       LineageMove(n, Split, selected, source.area, event),
                       LineageMove(n + 1, Split, source.quantity - selected, source.area, event)],
            h.edges + [Edge(f, n, event), Edge(f, n + 1, event)])
  }

  function SplitFlows(flows: seq<Flow>, f: nat, selected: nat): seq<Flow>
    requires f < |flows| && selected <= flows[f].quantity
  {
    var source := flows[f];
    flows[f := source.(status := SplitUp, machine := None)]
    + [source.(quantity := selected), source.(quantity := source.quantity - selected)]
  }

  lemma SplitIsValid(h: History, flows: seq<Flow>, f: nat, selected: nat, event: nat)
    requires ValidState(h, flows) && f < |flows| && flows[f].status == Active && selected <= flows[f].quantity
    requires CanRecord(h.moves, event)
    ensures ValidState(SplitHistory(h, flows, f, selected, event), SplitFlows(flows, f, selected))
  {
    hide WellFormed, Quantities, NetZero, Conserves, Agrees, PassesOn, CanRecord, SplitHistory;
    SplitBlock(h, flows, f, selected, event);
    SplitStores(h, flows, f, selected, event);
    SplitPasses(h, flows, f, selected, event);
    StepIsValid(h, SplitHistory(h, flows, f, selected, event), event, flows, SplitFlows(flows, f, selected));
  }

  lemma SplitRows(h: History, flows: seq<Flow>, f: nat, selected: nat, event: nat)
    requires f < |flows| && selected <= flows[f].quantity
    ensures var h2, n, m := SplitHistory(h, flows, f, selected, event), |flows|, |h.moves|;
            && |h2.moves| == m + 3 && h.moves <= h2.moves && |h2.edges| == |h.edges| + 2 && h.edges <= h2.edges
            && h2.moves[m] == LineageMove(f, Split, flows[f].quantity, flows[f].area, event)
            && h2.moves[m + 1] == LineageMove(n, Split, selected, flows[f].area, event)
            && h2.moves[m + 2] == LineageMove(n + 1, Split, flows[f].quantity - selected, flows[f].area, event)
            && h2.edges[|h.edges|] == Edge(f, n, event) && h2.edges[|h.edges| + 1] == Edge(f, n + 1, event)
  {
  }

  lemma SplitBlock(h: History, flows: seq<Flow>, f: nat, selected: nat, event: nat)
    requires WellFormed(h, |flows|) && Agrees(h, flows) && f < |flows| && flows[f].status == Active
    requires selected <= flows[f].quantity && CanRecord(h.moves, event)
    ensures Block(h, SplitHistory(h, flows, f, selected, event), |flows|, |flows| + 2, event)
  {
    hide WellFormed, Agrees, CanRecord, SplitHistory, BlockRow, NewEdge, HasRow;
    var h2, n, m := SplitHistory(h, flows, f, selected, event), |flows|, |h.moves|;
    var n2 := n + 2;
    SplitRows(h, flows, f, selected, event);
    SplitBlockRows(h, flows, f, selected, event);
    assert LineageRow(h2, m, f) && LineageRow(h2, m + 1, n) && LineageRow(h2, m + 2, n + 1);
    assert NewEdge(h, h2, n, n2, event, h2.edges[|h.edges|])
           && NewEdge(h, h2, n, n2, event, h2.edges[|h.edges| + 1]) by {
      SplitNewEdges(h, h2, flows, f, event);
    }
    assert HasRow(h, h2, n) && HasRow(h, h2, n + 1) by { SplitHasRows(h, h2, n); }
  }

  lemma SplitNewEdges(h: History, h2: History, flows: seq<Flow>, f: nat, event: nat)
    requires f < |flows| && |h2.moves| == |h.moves| + 3
    requires LineageRow(h2, |h.moves|, f) && LineageRow(h2, |h.moves| + 1, |flows|)
               && LineageRow(h2, |h.moves| + 2, |flows| + 1)
    ensures NewEdge(h, h2, |flows|, |flows| + 2, event, Edge(f, |flows|, event))
    ensures NewEdge(h, h2, |flows|, |flows| + 2, event, Edge(f, |flows| + 1, event))
  {
  }

  lemma SplitHasRows(h: History, h2: History, n: nat)
    requires |h2.moves| == |h.moves| + 3 && h2.moves[|h.moves| + 1].flow == n && h2.moves[|h.moves| + 2].flow == n + 1
    ensures HasRow(h, h2, n) && HasRow(h, h2, n + 1)
  {
  }

  lemma SplitBlockRows(h: History, flows: seq<Flow>, f: nat, selected: nat, event: nat)
    requires WellFormed(h, |flows|) && Agrees(h, flows) && f < |flows| && flows[f].status == Active
    requires selected <= flows[f].quantity
    ensures var h2, n, m := SplitHistory(h, flows, f, selected, event), |flows|, |h.moves|;
            && |h2.moves| == m + 3 && BlockRow(h, h2, n, n + 2, event, m) && BlockRow(h, h2, n, n + 2, event, m + 1)
            && BlockRow(h, h2, n, n + 2, event, m + 2)
  {
    hide WellFormed, Newest, First, Position, IsConsumed, SplitHistory, Last;
    var h2, n, m := SplitHistory(h, flows, f, selected, event), |flows|, |h.moves|;
    SplitRows(h, flows, f, selected, event);
    StatusByLast(h, n, f);
    assert FlowAgrees(h, f, flows[f]);
    LastCounts(h, f);
    assert h2.edges[|h.edges|] == Edge(f, n, event) && h2.edges[|h.edges| + 1] == Edge(f, n + 1, event);
    assert HasEdge(h, h2, m) && HasEdge(h, h2, m + 1) && HasEdge(h, h2, m + 2);
  }

  lemma SplitStores(h: History, flows: seq<Flow>, f: nat, selected: nat, event: nat)
    requires WellFormed(h, |flows|) && f < |flows| && flows[f].status == Active && selected <= flows[f].quantity
    ensures Stores(h, SplitHistory(h, flows, f, selected, event), flows, SplitFlows(flows, f, selected))
  {
    hide WellFormed, SplitHistory, LowestParent;
    var h2, flows2, n, m := SplitHistory(h, flows, f, selected, event), SplitFlows(flows, f, selected),
        |flows|, |h.moves|;
    SplitRows(h, flows, f, selected, event);
    assert HasRow(h, h2, f) by { assert h2.moves[m].flow == f; }
    forall k | m <= k < |h2.moves| ensures h2.moves[k].flow < |flows2| && Projected(h, h2, flows, flows2, k) {
      forall p: nat | p < n && BlockParent(h, h2, n, k, p) ensures p == f {
        var j :| m <= j < k && LineageRow(h2, j, p);
        assert j == m || j == m + 1;
      }
    }
  }

  lemma SplitPasses(h: History, flows: seq<Flow>, f: nat, selected: nat, event: nat)
    requires f < |flows| && selected <= flows[f].quantity
    ensures PassesOn(h, SplitHistory(h, flows, f, selected, event), |flows|, SplitFlows(flows, f, selected))
  {
    hide SplitHistory;
    var h2, flows2, n, m := SplitHistory(h, flows, f, selected, event), SplitFlows(flows, f, selected),
        |flows|, |h.moves|;
    SplitRows(h, flows, f, selected, event);
    assert HasLineageRow(h, h2, f) by { assert h2.moves[m].flow == f; }
    assert HasLineageRow(h, h2, n) by { assert h2.moves[m + 1].flow == n; }
    assert HasLineageRow(h, h2, n + 1) by { assert h2.moves[m + 2].flow == n + 1; }
    forall part ensures Sum(StepOf(h, h2, n, flows2, part), |flows2|) == 0 {
      var step := StepOf(h, h2, n, flows2, part);
      var zero := (g: nat) => 0;
      forall g | 0 <= g < n && g != f ensures step(g) == 0 {
        assert !HasLineageRow(h, h2, g);
      }
      SumZero(zero, 0, n);
      SumOne(zero, step, n, f);
      assert Sum(step, n + 2) == Sum(step, n) + step(n) + step(n + 1);
    }
  }

  /** The command being written may go on with its next row. */
  lemma StillRecording(h: History, h2: History, n: nat, n2: nat, event: nat)
    requires Rows(h.moves, n) && Block(h, h2, n, n2, event) && |h2.moves| > |h.moves|
    ensures CanRecord(h2.moves, event)
  {
    hide IsReversed, StatusAt, HasEdge, NewEdge, StaysAt;
    SameEffective(h, h2, n);
    assert BlockRow(h, h2, n, n2, event, |h2.moves| - 1);
  }

  // ---------------------------------------------------------------- merge

  predicate Mergeable(flows: seq<Flow>, ids: seq<nat>) {
    && |ids| >= 2
    && (forall i :: 0 <= i < |ids| ==> ids[i] < |flows| && flows[ids[i]].status == Active)
    && (forall i, j :: 0 <= i < j < |ids| ==> ids[i] != ids[j])
    && forall i :: 0 <= i < |ids| ==>
         && flows[ids[i]].part == flows[ids[0]].part && flows[ids[i]].area == flows[ids[0]].area
         && flows[ids[i]].machine == flows[ids[0]].machine
  }

  function TotalOf(flows: seq<Flow>, ids: seq<nat>, k: nat): nat
    requires k <= |ids| && forall i :: 0 <= i < |ids| ==> ids[i] < |flows|
  {
    if k == 0 then 0 else TotalOf(flows, ids, k - 1) + flows[ids[k - 1]].quantity
  }

  function MergeRow(flows: seq<Flow>, id: nat, area: nat, event: nat): Movement
    requires id < |flows|
  {
    LineageMove(id, Merged, flows[id].quantity, area, event)
  }

  function MergeMoves(flows: seq<Flow>, ids: seq<nat>, event: nat): (rows: seq<Movement>)
    requires Mergeable(flows, ids)
    ensures |rows| == |ids| + 1
    ensures forall i :: 0 <= i < |ids| ==> rows[i] == MergeRow(flows, ids[i], flows[ids[0]].area, event)
  {
    seq(|ids|, i requires 0 <= i < |ids| => MergeRow(flows, ids[i], flows[ids[0]].area, event))
    + [LineageMove(|flows|, Merged, TotalOf(flows, ids, |ids|), flows[ids[0]].area, event)]
  }

  function MergeEdges(child: nat, ids: seq<nat>, event: nat): (edges: seq<Edge>)
    ensures |edges| == |ids| && forall i :: 0 <= i < |ids| ==> edges[i] == Edge(ids[i], child, event)
  {
    seq(|ids|, i requires 0 <= i < |ids| => Edge(ids[i], child, event))
  }

  /** Every source is consumed; one flow with their total comes into being where they were. */
  function MergeHistory(h: History, flows: seq<Flow>, ids: seq<nat>, event: nat): History
    requires Mergeable(flows, ids)
  {
    History(h.moves + MergeMoves(flows, ids, event), h.edges + MergeEdges(|flows|, ids, event))
  }

  function Consumed(flow: Flow): Flow {
    flow.(status := MergedInto, machine := None)
  }

  function MergeFlows(flows: seq<Flow>, ids: seq<nat>): seq<Flow>
    requires Mergeable(flows, ids)
  {
    seq(|flows|, f requires 0 <= f < |flows| => if f in ids then Consumed(flows[f]) else flows[f])
    + [flows[ids[0]].(quantity := TotalOf(flows, ids, |ids|))]
  }

  ghost predicate MergeShape(h: History, h2: History, flows: seq<Flow>, ids: seq<nat>, event: nat)
    requires |ids| > 0 && forall i :: 0 <= i < |ids| ==> ids[i] < |flows|
  {
    && |h2.moves| == |h.moves| + |ids| + 1 && h.moves <= h2.moves
    && |h2.edges| == |h.edges| + |ids| && h.edges <= h2.edges
    && (forall i :: 0 <= i < |ids| ==> h2.moves[|h.moves| + i] == MergeRow(flows, ids[i], flows[ids[0]].area, event))
    && h2.moves[|h.moves| + |ids|]
    == LineageMove(|flows|, Merged, TotalOf(flows, ids, |ids|), flows[ids[0]].area, event)
    && forall i :: 0 <= i < |ids| ==> h2.edges[|h.edges| + i] == Edge(ids[i], |flows|, event)
  }

  lemma MergeRows(h: History, flows: seq<Flow>, ids: seq<nat>, event: nat)
    requires Mergeable(flows, ids)
    ensures MergeShape(h, MergeHistory(h, flows, ids, event), flows, ids, event)
  {
    hide TotalOf, MergeRow, MergeEdges;
    var rows := MergeMoves(flows, ids, event);
    assert MergeHistory(h, flows, ids, event).moves[|h.moves| + |ids|] == rows[|ids|];
    forall i | 0 <= i < |ids|
      ensures MergeHistory(h, flows, ids, event).moves[|h.moves| + i]
                == MergeRow(flows, ids[i], flows[ids[0]].area, event)
    {
      assert MergeHistory(h, flows, ids, event).moves[|h.moves| + i] == rows[i];
    }
  }

  lemma MergeIsValid(h: History, flows: seq<Flow>, ids: seq<nat>, event: nat)
    requires ValidState(h, flows) && Mergeable(flows, ids) && CanRecord(h.moves, event)
    ensures ValidState(MergeHistory(h, flows, ids, event), MergeFlows(flows, ids))
  {
    hide WellFormed, Quantities, NetZero, Conserves, Agrees, PassesOn, CanRecord, MergeHistory, MergeFlows;
    MergeBlock(h, flows, ids, event);
    MergeStores(h, flows, ids, event);
    MergePasses(h, flows, ids, event);
    assert |MergeFlows(flows, ids)| == |flows| + 1 by { MergeSize(flows, ids); }
    StepIsValid(h, MergeHistory(h, flows, ids, event), event, flows, MergeFlows(flows, ids));
  }

  lemma MergeSize(flows: seq<Flow>, ids: seq<nat>)
    requires Mergeable(flows, ids)
    ensures |MergeFlows(flows, ids)| == |flows| + 1
    ensures MergeFlows(flows, ids)[|flows|] == flows[ids[0]].(quantity := TotalOf(flows, ids, |ids|))
    ensures forall f :: 0 <= f < |flows| ==>
              MergeFlows(flows, ids)[f] == if f in ids then Consumed(flows[f]) else flows[f]
  {
  }

  lemma MergeBlock(h: History, flows: seq<Flow>, ids: seq<nat>, event: nat)
    requires WellFormed(h, |flows|) && Agrees(h, flows) && Mergeable(flows, ids) && CanRecord(h.moves, event)
    ensures Block(h, MergeHistory(h, flows, ids, event), |flows|, |flows| + 1, event)
  {
    hide WellFormed, CanRecord, MergeHistory, BlockRow, NewEdge, Agrees;
    var h2, n, m := MergeHistory(h, flows, ids, event), |flows|, |h.moves|;
    var n2 := n + 1;
    MergeRows(h, flows, ids, event);
    forall k | m <= k < |h2.moves| ensures BlockRow(h, h2, n, n2, event, k) {
      MergeBlockRow(h, flows, ids, event, k);
    }
    forall j, k | m <= j < k < |h2.moves| ensures h2.moves[j].flow != h2.moves[k].flow {
      assert h2.moves[j] == MergeRow(flows, ids[j - m], flows[ids[0]].area, event);
      assert k < m + |ids| ==> h2.moves[k] == MergeRow(flows, ids[k - m], flows[ids[0]].area, event);
    }
    forall k | m <= k < |h2.moves| ensures h2.moves[k].area == flows[ids[0]].area {
      assert k < m + |ids| ==> h2.moves[k] == MergeRow(flows, ids[k - m], flows[ids[0]].area, event);
    }
    forall k | m <= k < |h2.moves| ensures h2.moves[k].reverses.None? && h2.moves[k].kind != Reversed {
      assert k < m + |ids| ==> h2.moves[k] == MergeRow(flows, ids[k - m], flows[ids[0]].area, event);
    }
    assert HasRow(h, h2, n) by { assert h2.moves[m + |ids|].flow == n; }
    forall e | |h.edges| <= e < |h2.edges| ensures NewEdge(h, h2, n, n2, event, h2.edges[e]) && h2.edges[e].child >= n {
      MergeNewEdge(h, flows, ids, event, e);
    }
  }

  lemma MergeNewEdge(h: History, flows: seq<Flow>, ids: seq<nat>, event: nat, e: nat)
    requires Mergeable(flows, ids)
    requires |h.edges| <= e < |MergeHistory(h, flows, ids, event).edges|
    ensures var h2, n := MergeHistory(h, flows, ids, event), |flows|;
            NewEdge(h, h2, n, n + 1, event, h2.edges[e]) && h2.edges[e].child == n
  {
    hide MergeHistory;
    var h2, n, m := MergeHistory(h, flows, ids, event), |flows|, |h.moves|;
    MergeRows(h, flows, ids, event);
    var i := e - |h.edges|;
    assert h2.edges[|h.edges| + i] == Edge(ids[i], n, event);
    assert h2.moves[m + i] == MergeRow(flows, ids[i], flows[ids[0]].area, event);
    assert LineageRow(h2, m + i, ids[i]) && LineageRow(h2, m + |ids|, n);
  }

  lemma MergeBlockRow(h: History, flows: seq<Flow>, ids: seq<nat>, event: nat, k: nat)
    requires WellFormed(h, |flows|) && Agrees(h, flows) && Mergeable(flows, ids)
    requires |h.moves| <= k < |MergeHistory(h, flows, ids, event).moves|
    ensures BlockRow(h, MergeHistory(h, flows, ids, event), |flows|, |flows| + 1, event, k)
  {
    hide WellFormed, Newest, First, Position, IsConsumed, MergeHistory;
    var h2, n, m := MergeHistory(h, flows, ids, event), |flows|, |h.moves|;
    MergeRows(h, flows, ids, event);
    if k == m + |ids| {
      assert h2.edges[|h.edges| + 0] == Edge(ids[0], n, event);
      assert HasEdge(h, h2, k);
    } else {
      var i := k - m;
      assert h2.moves[m + i] == MergeRow(flows, ids[i], flows[ids[0]].area, event);
      assert h2.edges[|h.edges| + i] == Edge(ids[i], n, event);
      assert HasEdge(h, h2, k);
      StatusByLast(h, n, ids[i]);
      assert FlowAgrees(h, ids[i], flows[ids[i]]);
      LastCounts(h, ids[i]);
    }
  }

  lemma SourceHasRow(h: History, flows: seq<Flow>, ids: seq<nat>, event: nat, f: nat)
    requires Mergeable(flows, ids) && f < |flows|
    ensures f in ids ==> HasRow(h, MergeHistory(h, flows, ids, event), f)
  {
    hide MergeHistory;
    var h2 := MergeHistory(h, flows, ids, event);
    MergeRows(h, flows, ids, event);
    if f in ids {
      var i :| 0 <= i < |ids| && ids[i] == f;
      assert h2.moves[|h.moves| + i] == MergeRow(flows, ids[i], flows[ids[0]].area, event);
    }
  }

  lemma MergeStores(h: History, flows: seq<Flow>, ids: seq<nat>, event: nat)
    requires WellFormed(h, |flows|) && Mergeable(flows, ids)
    ensures Stores(h, MergeHistory(h, flows, ids, event), flows, MergeFlows(flows, ids))
  {
    hide WellFormed, MergeHistory, MergeFlows, LowestParent;
    var h2, flows2, n, m := MergeHistory(h, flows, ids, event), MergeFlows(flows, ids), |flows|, |h.moves|;
    MergeRows(h, flows, ids, event);
    MergeSize(flows, ids);
    forall f | 0 <= f < n && !HasRow(h, h2, f) ensures flows2[f] == flows[f] {
      SourceHasRow(h, flows, ids, event, f);
    }
    forall k | m <= k < |h2.moves| ensures h2.moves[k].flow < |flows2| && Projected(h, h2, flows, flows2, k) {
      if k < m + |ids| {
        assert h2.moves[k] == MergeRow(flows, ids[k - m], flows[ids[0]].area, event);
      } else {
        forall p: nat | p < n && BlockParent(h, h2, n, k, p) ensures flows2[n].machine == flows[p].machine {
          var j :| m <= j < k && LineageRow(h2, j, p);
          assert h2.moves[j] == MergeRow(flows, ids[j - m], flows[ids[0]].area, event);
        }
      }
    }
  }

  /** The quantity of the first `k` sources, summed over all flows. */
  ghost function Chosen(flows: seq<Flow>, ids: seq<nat>, k: nat): nat -> int
    requires k <= |ids|
  {
    (f: nat) => if f < |flows| && f in ids[..k] then flows[f].quantity else 0
  }

  lemma {:induction false} ChosenTotal(flows: seq<Flow>, ids: seq<nat>, k: nat)
    requires k <= |ids| && forall i :: 0 <= i < |ids| ==> ids[i] < |flows|
    requires forall i, j :: 0 <= i < j < |ids| ==> ids[i] != ids[j]
    ensures Sum(Chosen(flows, ids, k), |flows|) == TotalOf(flows, ids, k)
  {
    if k == 0 {
      SumZero(Chosen(flows, ids, 0), 0, |flows|);
    } else {
      ChosenTotal(flows, ids, k - 1);
      var a, b := Chosen(flows, ids, k - 1), Chosen(flows, ids, k);
      assert ids[..k] == ids[..k - 1] + [ids[k - 1]];
      assert forall f :: 0 <= f < |flows| && f != ids[k - 1] ==> a(f) == b(f);
      SumOne(a, b, |flows|, ids[k - 1]);
    }
  }

  lemma MergePasses(h: History, flows: seq<Flow>, ids: seq<nat>, event: nat)
    requires Mergeable(flows, ids)
    ensures PassesOn(h, MergeHistory(h, flows, ids, event), |flows|, MergeFlows(flows, ids))
  {
    hide MergeHistory, MergeFlows, Mergeable, StepAt;
    MergeSize(flows, ids);
    forall part ensures
      Sum(StepOf(h, MergeHistory(h, flows, ids, event), |flows|, MergeFlows(flows, ids), part),
          |MergeFlows(flows, ids)|) == 0
    {
      MergePart(h, flows, ids, event, part);
    }
  }

  lemma MergePart(h: History, flows: seq<Flow>, ids: seq<nat>, event: nat, part: string)
    requires Mergeable(flows, ids)
    ensures Sum(StepOf(h, MergeHistory(h, flows, ids, event), |flows|, MergeFlows(flows, ids), part), |flows| + 1) == 0
  {
    hide MergeHistory, MergeFlows, StepAt, TotalOf;
    var n := |flows|;
    var step := StepOf(h, MergeHistory(h, flows, ids, event), n, MergeFlows(flows, ids), part);
    assert Sum(step, n + 1) == Sum(step, n) + step(n);
    ChosenTotal(flows, ids, |ids|);
    MergeStepAt(h, flows, ids, event, part, n);
    forall f | 0 <= f < n ensures step(f) == if part == flows[ids[0]].part then Chosen(flows, ids, |ids|)(f) else 0 {
      MergeStepAt(h, flows, ids, event, part, f);
      assert ids[..|ids|] == ids;
    }
    if part == flows[ids[0]].part {
      SumSame(step, Chosen(flows, ids, |ids|), n);
    } else {
      SumZero(step, 0, n);
    }
    assert |flows| !in ids;
  }

  lemma MergeStepAt(h: History, flows: seq<Flow>, ids: seq<nat>, event: nat, part: string, f: nat)
    requires Mergeable(flows, ids) && f <= |flows|
    ensures StepAt(h, MergeHistory(h, flows, ids, event), |flows|, MergeFlows(flows, ids), part, f)
         == if part != flows[ids[0]].part then 0
            else if f == |flows| then 0 - TotalOf(flows, ids, |ids|)
            else if f in ids then flows[f].quantity else 0
  {
    hide MergeHistory, MergeFlows, HasLineageRow, TotalOf;
    MergeLineage(h, flows, ids, event, f);
    MergeSize(flows, ids);
  }

  lemma MergeLineage(h: History, flows: seq<Flow>, ids: seq<nat>, event: nat, f: nat)
    requires Mergeable(flows, ids) && f <= |flows|
    ensures HasLineageRow(h, MergeHistory(h, flows, ids, event), f) <==> f == |flows| || f in ids
  {
    hide MergeHistory, TotalOf, Mergeable;
    var h2, n, m := MergeHistory(h, flows, ids, event), |flows|, |h.moves|;
    assert |ids| > 0 && forall i :: 0 <= i < |ids| ==> ids[i] < n by { SourcesExist(flows, ids); }
    MergeRows(h, flows, ids, event);
    if f in ids {
      var i :| 0 <= i < |ids| && ids[i] == f;
      assert h2.moves[m + i] == MergeRow(flows, ids[i], flows[ids[0]].area, event);
    }
    assert h2.moves[m + |ids|].flow == n && IsLineage(h2.moves[m + |ids|].kind);
    if k :| m <= k < |h2.moves| && h2.moves[k].flow == f && IsLineage(h2.moves[k].kind) {
      assert k < m + |ids| ==> h2.moves[k] == MergeRow(flows, ids[k - m], flows[ids[0]].area, event);
    }
  }

  lemma SourcesExist(flows: seq<Flow>, ids: seq<nat>)
    requires Mergeable(flows, ids)
    ensures |ids| > 0 && forall i :: 0 <= i < |ids| ==> ids[i] < |flows|
  {
  }

  // ---------------------------------------------------------------- undo

  /** The rows of a command, in the order in which they were written. */
  function CommandRows(moves: seq<Movement>, event: nat, n: nat): (rows: seq<nat>)
    requires n <= |moves|
    ensures forall i :: 0 <= i < |rows| ==> rows[i] < n && moves[rows[i]].event == event
    ensures forall k :: 0 <= k < n && moves[k].event == event ==> k in rows
    ensures forall i, j :: 0 <= i < j < |rows| ==> rows[i] < rows[j]
  {
    if n == 0 then []
    else CommandRows(moves, event, n - 1) + if moves[n - 1].event == event then [n - 1] else []
  }

  /** The compensating row; only a transfer leads back to where it came from. */
  function Reversal(row: Movement, k: nat, undo: nat): Movement {
    Movement(row.flow, Reversed, row.quantity, Some(row.area),
             if row.kind == Transferred && row.source.Some? then row.source.value else row.area, None, undo, Some(k))
  }

  function UndoHistory(h: History, event: nat, undo: nat): History {
    var rows := CommandRows(h.moves, event, |h.moves|);
    History(h.moves + seq(|rows|, i requires 0 <= i < |rows| =>
                                    var k := rows[|rows| - 1 - i]; Reversal(h.moves[k], k, undo)), h.edges)
  }

  /** The plan of an undo for one flow: untouched, gone, or back where the history without the command says. */
  function Restored(h: History, event: nat, f: nat, flow: Flow): Flow {
    if !Involved(h, event, f) then flow
    else if MadeBy(h, event, f) then flow.(status := Undone, machine := None)
    else match Position(h, f, Some(event), |h.moves|)
      case None => flow
      case Some(k) => flow.(status := Active, area := h.moves[k].area, machine := h.moves[k].machine)
  }

  function UndoFlows(h: History, flows: seq<Flow>, event: nat): seq<Flow> {
    seq(|flows|, f requires 0 <= f < |flows| => Restored(h, event, f, flows[f]))
  }

  lemma UndoReverses(h: History, event: nat, undo: nat)
    requires undo != event && forall k :: 0 <= k < |h.moves| ==> h.moves[k].event != undo
    ensures Reverses(h, UndoHistory(h, event, undo), event, undo)
  {
    var h2, rows, m := UndoHistory(h, event, undo), CommandRows(h.moves, event, |h.moves|), |h.moves|;
    forall r | m <= r < |h2.moves| ensures ReversalRow(h, h2.moves[r], event, undo) {
      var k := rows[|rows| - 1 - (r - m)];
      assert h2.moves[r] == Reversal(h.moves[k], k, undo);
    }
    forall k | 0 <= k < m && h.moves[k].event == event ensures IsReversed(h2.moves, k) {
      var i :| 0 <= i < |rows| && rows[i] == k;
      assert h2.moves[m + (|rows| - 1 - i)] == Reversal(h.moves[k], k, undo);
    }
  }

  lemma RestoredAgrees(h: History, h2: History, flows: seq<Flow>, event: nat, undo: nat, f: nat)
    requires WellFormed(h, |flows|) && WellFormed(h2, |flows|) && Agrees(h, flows)
    requires Undoable(h, event) && Reverses(h, h2, event, undo) && f < |flows|
    ensures FlowAgrees(h2, f, Restored(h, event, f, flows[f]))
  {
    hide WellFormed, Undoable, Reverses, Position, First, Newest, Involved, MadeBy, ImpliedStatus;
    assert FlowAgrees(h, f, flows[f]);
    if !Involved(h, event, f) {
      UninvolvedAgrees(h, h2, |flows|, event, undo, f, flows[f]);
    } else if MadeBy(h, event, f) {
      MadeIsGone(h, h2, |flows|, event, undo, f);
    } else {
      TouchedIsActive(h, h2, |flows|, event, undo, f);
    }
  }

  lemma UndoIsValid(h: History, flows: seq<Flow>, event: nat, undo: nat)
    requires ValidState(h, flows) && Undoable(h, event) && ReceivedNothing(h, event)
    requires undo != event && forall k :: 0 <= k < |h.moves| ==> h.moves[k].event != undo
    ensures ValidState(UndoHistory(h, event, undo), UndoFlows(h, flows, event))
  {
    hide WellFormed, Undoable, Quantities, NetZero, Conserves, FlowAgrees, Restored, UndoHistory, Reverses,
         ReceivedStays, ReceivedNothing;
    var h2, flows2 := UndoHistory(h, event, undo), UndoFlows(h, flows, event);
    UndoReverses(h, event, undo);
    UndoKeeps(h, h2, |flows|, event, undo);
    forall f | 0 <= f < |flows2|
      ensures FlowAgrees(h2, f, flows2[f]) && flows2[f].part == flows[f].part && flows2[f].quantity == flows[f].quantity
    {
      RestoredAgrees(h, h2, flows, event, undo, f);
      RestoredGoods(h, event, f, flows[f]);
    }
    UndoKeepsBalance(h, h2, |flows|, event, undo, flows, flows2);
    UndoQuantities(h, h2, flows, flows2, event, undo);
    PartsOf(h, |flows|);
    UndoTakesNoReceipt(h, h2, |flows|, event, undo);
  }

  lemma UndoTakesNoReceipt(h: History, h2: History, n: nat, event: nat, undo: nat)
    requires Rows(h.moves, n) && ReceivedStays(h) && ReceivedNothing(h, event) && Reverses(h, h2, event, undo)
    ensures ReceivedStays(h2)
  {
    hide Reverses, IsReversed;
    UndoGrows(h, h2, event, undo);
    forall k | 0 <= k < |h2.moves| && h2.moves[k].kind == Received ensures !IsReversed(h2.moves, k) {
      if k < |h.moves| {
        UndoneReversed(h, h2, n, event, undo, k);
      }
    }
  }

  lemma RestoredGoods(h: History, event: nat, f: nat, flow: Flow)
    ensures Restored(h, event, f, flow).part == flow.part && Restored(h, event, f, flow).quantity == flow.quantity
  {
  }

  lemma UndoQuantities(h: History, h2: History, flows: seq<Flow>, flows2: seq<Flow>, event: nat, undo: nat)
    requires Quantities(h, flows) && Reverses(h, h2, event, undo) && h2 == UndoHistory(h, event, undo)
    requires |flows2| == |flows| && SameGoods(flows, flows2)
    ensures Quantities(h2, flows2)
  {
    hide Reverses;
    var rows, m := CommandRows(h.moves, event, |h.moves|), |h.moves|;
    forall k | 0 <= k < |h2.moves|
      ensures h2.moves[k].flow < |flows2| && h2.moves[k].quantity == flows2[h2.moves[k].flow].quantity
    {
      if k >= m {
        var target := rows[|rows| - 1 - (k - m)];
        assert h2.moves[k] == Reversal(h.moves[target], target, undo);
      }
    }
  }

  /** The flow is where it was when the command began. */
  ghost predicate BackAsBefore(h: History, event: nat, f: nat, flow: Flow) {
    forall s :: Begins(h, event, s) ==> AsAt(h, s, f, flow)
  }

  ghost predicate AsAt(h: History, s: nat, f: nat, flow: Flow) {
    && s <= |h.moves|
    && var last, position := Newest(Past(h, s).moves, f, false, None, s), Position(Past(h, s), f, None, s);
       && flow.status == Active && last.Some? && position.Some? && position.value < s
       && flow.area == h.moves[last.value].area && flow.machine == h.moves[position.value].machine
  }

  /** The plan of an undo puts every touched flow back as it was, whatever other flows did in between. */
  lemma RestoredAsBefore(h: History, flows: seq<Flow>, event: nat, undo: nat, f: nat)
    requires ValidState(h, flows) && Undoable(h, event) && f < |flows| && Involved(h, event, f) && !MadeBy(h, event, f)
    requires undo != event && forall k :: 0 <= k < |h.moves| ==> h.moves[k].event != undo
    ensures BackAsBefore(h, event, f, Restored(h, event, f, flows[f]))
  {
    hide WellFormed, Undoable, Reverses, Quantities, NetZero, Conserves, Agrees, Position, First, Newest, Involved,
         MadeBy, UndoHistory, Last;
    var h2 := UndoHistory(h, event, undo);
    UndoReverses(h, event, undo);
    UndoKeeps(h, h2, |flows|, event, undo);
    TouchedIsActive(h, h2, |flows|, event, undo, f);
    UndoGrows(h, h2, event, undo);
    forall s | Begins(h, event, s) ensures AsAt(h, s, f, Restored(h, event, f, flows[f])) {
      UndoRestores(h, h2, |flows|, event, undo, s, f);
      PositionWithin(h, s, f);
    }
  }

  lemma PositionWithin(h: History, s: nat, f: nat)
    requires s <= |h.moves|
    ensures Position(Past(h, s), f, None, s).Some? ==> Position(Past(h, s), f, None, s).value < s
    ensures Newest(Past(h, s).moves, f, false, None, s).Some? ==> Newest(Past(h, s).moves, f, false, None, s).value < s
  {
  }

  /** What a ledger stored when the history had `s` rows is what the undo puts back. */
  lemma SameAsStored(h: History, h0: History, flows0: seq<Flow>, f: nat, flow: Flow)
    requires ValidState(h0, flows0) && f < |flows0| && h0.moves <= h.moves && h0.edges <= h.edges
    requires forall e :: |h0.edges| <= e < |h.edges| ==> h.edges[e].child >= |flows0|
    requires AsAt(h, |h0.moves|, f, flow) && flow.part == flows0[f].part && flow.quantity == flows0[f].quantity
    requires flows0[f].status == Active
    ensures flow == flows0[f]
  {
    hide WellFormed, Quantities, NetZero, Conserves, Position, First, Newest, ImpliedStatus;
    var s := |h0.moves|;
    var past := Past(h, s);
    assert past.moves == h0.moves;
    PartsOf(h0, |flows0|);
    SamePosition(h0, past, |flows0|, f, s);
    assert FlowAgrees(h0, f, flows0[f]);
  }

  /** Introduced equals active plus stocked plus scrapped, for every part number. */
  lemma Balance(h: History, flows: seq<Flow>, part: string)
    requires ValidState(h, flows)
    ensures Balanced(h, flows, part)
  {
    BalanceHolds(h, flows, part);
  }

  // ---------------------------------------------------------------- the ledger

  /** What the configuration says now: active areas, terminal areas, the machines in service with their
      areas, and those under maintenance. */
  datatype Site = Site(open: set<nat>, terminal: set<nat>, machines: map<nat, nat>, maintenance: set<nat>)

  datatype Holding = Queued | OnMachine | Processing | Ready

  /** The state in which the newest position leaves quantity, in an area with or without machines. */
  function HoldingAfter(kind: Kind, direct: bool): Holding {
    if kind == Assigned then OnMachine
    else if kind == Completed then Ready
    else if direct then Processing else Queued
  }

  function HoldingOf(h: History, f: nat, direct: bool): Option<Holding> {
    match Position(h, f, None, |h.moves|)
    case None => None
    case Some(k) => Some(HoldingAfter(h.moves[k].kind, direct))
  }

  /** `Replayed`: the command was recorded before, and nothing is recorded twice. */
  datatype Outcome = Recorded | Replayed | Refused

  /** The flows after an action on a part of a flow: the rest stays where and how it was. */
  function Acted(flows: seq<Flow>, f: nat, quantity: nat, status: Status, area: nat, machine: Option<nat>): seq<Flow>
    requires f < |flows| && quantity <= flows[f].quantity
  {
    if quantity == flows[f].quantity then
      flows[f := flows[f].(status := status, area := area, machine := machine)]
    else
      SplitFlows(flows, f, quantity)[|flows| := Flow(flows[f].part, quantity, status, area, machine)]
  }

  /** Active quantity of this part number, in this area, of at least this amount. */
  predicate Holds(flows: seq<Flow>, f: nat, part: string, area: nat, quantity: nat) {
    && f < |flows| && flows[f].part == part && flows[f].status == Active && flows[f].area == area
    && 0 < quantity <= flows[f].quantity
  }

  /** The history with the split that an action on a part needs, and the flow the action is on. */
  function WithSplit(h: History, flows: seq<Flow>, f: nat, quantity: nat, event: nat): History
    requires f < |flows| && quantity <= flows[f].quantity
  {
    if quantity == flows[f].quantity then h else SplitHistory(h, flows, f, quantity, event)
  }

  function Selected(flows: seq<Flow>, f: nat, quantity: nat): nat
    requires f < |flows|
  {
    if quantity == flows[f].quantity then f else |flows|
  }

  /** The history after an action in an area: the split it needs, and its one row. */
  function ActedHistory(h: History, flows: seq<Flow>, f: nat, quantity: nat, kind: Kind, area: nat,
      machine: Option<nat>,
                        event: nat): History
    requires f < |flows| && quantity <= flows[f].quantity
  {
    Pushed(WithSplit(h, flows, f, quantity, event),
           Movement(Selected(flows, f, quantity), kind, quantity, Some(area), area, machine, event, None))
  }

  /** The history after an arrival: quantity that was being processed is completed at its source first. */
  function ArrivedHistory(h: History, flows: seq<Flow>, f: nat, quantity: nat, source: nat, target: nat, stocking: bool,
                          completes: bool, event: nat): History
    requires f < |flows| && quantity <= flows[f].quantity
  {
    var before := if completes then ActedHistory(h, flows, f, quantity, Completed, source, None, event)
                  else WithSplit(h, flows, f, quantity, event);
    Pushed(before, Movement(Selected(flows, f, quantity),
        if stocking then Stocked else Transferred, quantity, Some(source),
                            target, None, event, None))
  }

  class Ledger {
    var history: History
    var flows: seq<Flow>

    ghost predicate Valid()
      reads this
    {
      ValidState(history, flows)
    }

    predicate Knows(event: nat)
      reads this
    {
      exists k :: 0 <= k < |history.moves| && history.moves[k].event == event
    }

    /** The flow is on this machine, by its history and by what is stored. */
    predicate IsOn(site: Site, f: nat, area: nat, machine: nat)
      reads this
    {
      && f < |flows| && flows[f].machine == Some(machine)
      && HoldingOf(history, f, area !in site.machines.Values) == Some(OnMachine)
    }

    predicate IsProcessing(site: Site, f: nat, area: nat)
      reads this
    {
      HoldingOf(history, f, area !in site.machines.Values) in {Some(OnMachine), Some(Processing)}
    }

    constructor ()
      ensures Valid() && history == History([], []) && flows == []
    {
      history, flows := History([], []), [];
      new;
      EmptyIsValid();
    }

    method Push(row: Movement)
      requires Valid() && row.flow < |flows| && flows[row.flow].status == Active
      requires IsAction(row.kind) && row.reverses.None? && row.quantity == flows[row.flow].quantity
      requires row.kind == Scrapped ==> row.area == flows[row.flow].area
      requires CanRecord(history.moves, row.event)
      modifies this
      ensures Valid() && history == Pushed(old(history), row)
      ensures flows == old(flows)[row.flow := ActionOn(old(flows)[row.flow], row)]
      ensures CanRecord(history.moves, row.event)
    {
      hide WellFormed, Quantities, NetZero, Conserves, Agrees, CanRecord;
      PushIsValid(history, flows, row);
      PushedRecords(history, flows, row);
      flows := flows[row.flow := ActionOn(flows[row.flow], row)];
      history := Pushed(history, row);
    }

    /** The whole flow, or the selected child of a split. */
    method Select(f: nat, quantity: nat, event: nat) returns (selected: nat)
      requires Valid() && f < |flows| && flows[f].status == Active && quantity <= flows[f].quantity
      requires CanRecord(history.moves, event)
      modifies this
      ensures Valid() && CanRecord(history.moves, event)
      ensures quantity == old(flows)[f].quantity ==> selected == f && flows == old(flows) && history == old(history)
      ensures quantity != old(flows)[f].quantity ==>
                && selected == |old(flows)| && flows == SplitFlows(old(flows), f, quantity)
                && history == SplitHistory(old(history), old(flows), f, quantity, event)
    {
      hide WellFormed, Quantities, NetZero, Conserves, Agrees, CanRecord, SplitHistory;
      if quantity == flows[f].quantity {
        return f;
      }
      SplitIsValid(history, flows, f, quantity, event);
      SplitRecords(history, flows, f, quantity, event);
      selected := |flows|;
      history := SplitHistory(history, flows, f, quantity, event);
      flows := SplitFlows(flows, f, quantity);
    }

    /** Released or received quantity enters production. */
    method Receive(site: Site, part: string, quantity: nat, area: nat, event: nat) returns (r: Outcome)
      requires Valid()
      modifies this
      ensures Valid()
      ensures r == Recorded <==> !old(Knows(event)) && quantity > 0 && area in site.open && area !in site.terminal
      ensures r == Recorded ==> flows == old(flows) + [Flow(part, quantity, Active, area, None)]
      ensures r == Recorded ==>
                history == Pushed(old(history), IntroducedRow(old(flows), Received, quantity, area, event))
      ensures r != Recorded ==> flows == old(flows) && history == old(history)
    {
      hide WellFormed, Quantities, NetZero, Conserves, Agrees;
      if Knows(event) {
        return Replayed;
      }
      if quantity == 0 || area !in site.open || area in site.terminal {
        return Refused;
      }
      IntroduceIsValid(history, flows, part, Received, quantity, area, event);
      history := Pushed(history, IntroducedRow(flows, Received, quantity, area, event));
      flows := flows + [Flow(part, quantity, Active, area, None)];
      r := Recorded;
    }

    /** Found quantity is added beside active quantity of the part number in the area, and only there. */
    method AddQuantity(site: Site, part: string, quantity: nat, area: nat, event: nat) returns (r: Outcome)
      requires Valid()
      modifies this
      ensures Valid()
      ensures r == Recorded <==>
              && !old(Knows(event)) && quantity > 0 && area in site.open && area !in site.terminal
              && exists f: nat :: Holds(old(flows), f, part, area, 1)
      ensures r == Recorded ==> flows == old(flows) + [Flow(part, quantity, Active, area, None)]
      ensures r == Recorded ==>
                history == Pushed(old(history), IntroducedRow(old(flows), Adjusted, quantity, area, event))
      ensures r != Recorded ==> flows == old(flows) && history == old(history)
    {
      hide WellFormed, Quantities, NetZero, Conserves, Agrees;
      if Knows(event) {
        return Replayed;
      }
      var beside := FindWitness(part, area);
      if beside.None? || quantity == 0 || area !in site.open || area in site.terminal {
        return Refused;
      }
      IntroduceIsValid(history, flows, part, Adjusted, quantity, area, event);
      history := Pushed(history, IntroducedRow(flows, Adjusted, quantity, area, event));
      flows := flows + [Flow(part, quantity, Active, area, None)];
      r := Recorded;
    }

    method FindWitness(part: string, area: nat) returns (r: Option<nat>)
      ensures r.Some? ==> Holds(flows, r.value, part, area, 1)
      ensures r.None? ==> forall f: nat :: !Holds(flows, f, part, area, 1)
    {
      for f := 0 to |flows|
        invariant forall g :: 0 <= g < f ==> !Holds(flows, g, part, area, 1)
      {
        if Holds(flows, f, part, area, 1) {
          return Some(f);
        }
      }
      r := None;
    }

    /** Queued quantity goes onto a machine of its area. */
    method Assign(site: Site, f: nat, part: string, area: nat, quantity: nat, machine: nat, event: nat)
      returns (r: Outcome)
      requires Valid()
      modifies this
      ensures Valid()
      ensures r == Recorded <==>
              && !old(Knows(event)) && Holds(old(flows), f, part, area, quantity) && area in site.open
              && old(HoldingOf(history, f, area !in site.machines.Values)) == Some(Queued)
              && machine in site.machines && site.machines[machine] == area && machine !in site.maintenance
      ensures r == Recorded ==> flows == Acted(old(flows), f, quantity, Active, area, Some(machine))
      ensures r == Recorded ==>
                history == ActedHistory(old(history), old(flows), f, quantity, Assigned, area, Some(machine), event)
      ensures r != Recorded ==> flows == old(flows) && history == old(history)
    {
      hide WellFormed, Quantities, NetZero, Conserves, Agrees, SplitHistory;
      if Knows(event) {
        return Replayed;
      }
      if !Holds(flows, f, part, area, quantity) || area !in site.open
         || HoldingOf(history, f, area !in site.machines.Values) != Some(Queued)
         || machine !in site.machines || site.machines[machine] != area || machine in site.maintenance {
        return Refused;
      }
      var selected := Select(f, quantity, event);
      Push(Movement(selected, Assigned, quantity, Some(area), area, Some(machine), event, None));
      r := Recorded;
    }

    /** Quantity leaves its machine: back to the queue, or completed. */
    method LeaveMachine(site: Site, f: nat, part: string, area: nat, quantity: nat, machine: nat, completes: bool,
        event: nat)
      returns (r: Outcome)
      requires Valid()
      modifies this
      ensures Valid()
      ensures r == Recorded <==>
              && !old(Knows(event)) && Holds(old(flows), f, part, area, quantity) && area in site.open
              && old(IsOn(site, f, area, machine))
      ensures r == Recorded ==> flows == Acted(old(flows), f, quantity, Active, area, None)
      ensures r == Recorded ==>
                history == ActedHistory(old(history), old(flows), f, quantity,
                    if completes then Completed else Released, area,
                                        None, event)
      ensures r != Recorded ==> flows == old(flows) && history == old(history)
    {
      hide WellFormed, Quantities, NetZero, Conserves, Agrees, SplitHistory;
      if Knows(event) {
        return Replayed;
      }
      if !Holds(flows, f, part, area, quantity) || area !in site.open || !IsOn(site, f, area, machine) {
        return Refused;
      }
      var selected := Select(f, quantity, event);
      Push(Movement(selected, if completes then Completed else Released,
          quantity, Some(area), area, None, event, None));
      r := Recorded;
    }

    /** Damaged quantity leaves production. */
    method Scrap(site: Site, f: nat, part: string, area: nat, quantity: nat, event: nat) returns (r: Outcome)
      requires Valid()
      modifies this
      ensures Valid()
      ensures r == Recorded <==> !old(Knows(event)) && Holds(old(flows), f, part, area, quantity) && area in site.open
      ensures r == Recorded ==> flows == Acted(old(flows), f, quantity, ScrappedOut, area, None)
      ensures r == Recorded ==>
                history == ActedHistory(old(history), old(flows), f, quantity, Scrapped, area, None, event)
      ensures r != Recorded ==> flows == old(flows) && history == old(history)
    {
      hide WellFormed, Quantities, NetZero, Conserves, Agrees, SplitHistory;
      if Knows(event) {
        return Replayed;
      }
      if !Holds(flows, f, part, area, quantity) || area !in site.open {
        return Refused;
      }
      var selected := Select(f, quantity, event);
      Push(Movement(selected, Scrapped, quantity, Some(area), area, None, event, None));
      r := Recorded;
    }

    /** Quantity arrives in another area, or in the stockroom; what was being processed is completed first. */
    method Arrive(site: Site, f: nat, part: string, source: nat, target: nat, quantity: nat, stocking: bool, event: nat)
      returns (r: Outcome)
      requires Valid()
      modifies this
      ensures Valid()
      ensures r == Recorded <==>
              && !old(Knows(event)) && Holds(old(flows), f, part, source, quantity) && source != target
              && target in site.open && (target in site.terminal <==> stocking)
      ensures r == Recorded ==>
                flows == Acted(old(flows), f, quantity, if stocking then StockedAway else Active, target, None)
      ensures r == Recorded ==>
                history == ArrivedHistory(old(history), old(flows), f, quantity, source, target, stocking,
                                          old(IsProcessing(site, f, source)), event)
      ensures r != Recorded ==> flows == old(flows) && history == old(history)
    {
      hide WellFormed, Quantities, NetZero, Conserves, Agrees, SplitHistory;
      if Knows(event) {
        return Replayed;
      }
      if !Holds(flows, f, part, source, quantity) || source == target || target !in site.open
         || (target in site.terminal) != stocking {
        return Refused;
      }
      var completes := IsProcessing(site, f, source);
      var selected := Select(f, quantity, event);
      if completes {
        Push(Movement(selected, Completed, quantity, Some(source), source, None, event, None));
      }
      Push(Movement(selected, if stocking then Stocked else Transferred,
          quantity, Some(source), target, None, event, None));
      r := Recorded;
    }

    /** Flows of one part number, in one place and state, become one. */
    method Merge(site: Site, ids: seq<nat>, part: string, area: nat, event: nat) returns (r: Outcome)
      requires Valid()
      modifies this
      ensures Valid()
      ensures r == Recorded <==>
              && !old(Knows(event)) && Mergeable(old(flows), ids) && old(flows)[ids[0]].part == part
              && old(flows)[ids[0]].area == area && area in site.open && old(OneHolding(site, ids, area))
      ensures r == Recorded ==>
                flows == MergeFlows(old(flows), ids) && history == MergeHistory(old(history), old(flows), ids, event)
      ensures r != Recorded ==> flows == old(flows) && history == old(history)
    {
      hide WellFormed, Quantities, NetZero, Conserves, Agrees, MergeHistory, MergeFlows, TotalOf;
      if Knows(event) {
        return Replayed;
      }
      if !Mergeable(flows, ids) || flows[ids[0]].part != part || flows[ids[0]].area != area || area !in site.open
         || !OneHolding(site, ids, area) {
        return Refused;
      }
      MergeIsValid(history, flows, ids, event);
      var closed := CloseSources(ids);
      history := MergeHistory(history, flows, ids, event);
      flows := closed + [flows[ids[0]].(quantity := TotalOf(flows, ids, |ids|))];
      MergeSize(old(flows), ids);
      assert flows == MergeFlows(old(flows), ids);
      r := Recorded;
    }

    method CloseSources(ids: seq<nat>) returns (closed: seq<Flow>)
      requires Mergeable(flows, ids)
      ensures |closed| == |flows|
      ensures forall f :: 0 <= f < |flows| ==> closed[f] == if f in ids then Consumed(flows[f]) else flows[f]
    {
      closed := flows;
      for i := 0 to |ids|
        invariant |closed| == |flows|
        invariant forall f :: 0 <= f < |flows| ==> closed[f] == if f in ids[..i] then Consumed(flows[f]) else flows[f]
      {
        closed := closed[ids[i] := Consumed(flows[ids[i]])];
        assert ids[..i + 1] == ids[..i] + [ids[i]];
      }
      assert ids[..|ids|] == ids;
    }

    predicate OneHolding(site: Site, ids: seq<nat>, area: nat)
      reads this
    {
      forall i, j :: 0 <= i < |ids| && 0 <= j < |ids| ==>
        HoldingOf(history, ids[i], area !in site.machines.Values)
            == HoldingOf(history, ids[j], area !in site.machines.Values)
    }

    /** Why a command cannot be undone, or not: the check the undo makes under its locks. */
    method Eligible(event: nat) returns (ok: bool)
      ensures ok <==> Undoable(history, event) && ReceivedNothing(history, event)
    {
      hide UndoableRow, Undoable, ReceivedNothing;
      var rows := CommandRows(history.moves, event, |history.moves|);
      ok := rows != [];
      for i := 0 to |rows|
        invariant ok <==> rows != [] && forall j :: 0 <= j < i ==> EligibleRow(history, event, rows[j])
      {
        ok := ok && EligibleRow(history, event, rows[i]);
      }
      EligibleRows(history, event);
    }

    /** Reverses one whole command: the newest thing that happened to every flow it touched. */
    method Undo(site: Site, event: nat, undo: nat) returns (r: Outcome)
      requires Valid()
      modifies this
      ensures Valid()
      ensures r == Recorded <==>
              && undo != event && !old(Knows(undo)) && Undoable(old(history), event)
              && ReceivedNothing(old(history), event)
              && TargetsOpen(site, old(history), old(flows), event)
      ensures r == Recorded ==> history == UndoHistory(old(history), event, undo)
      ensures r == Recorded ==> |flows| == |old(flows)| && forall f :: 0 <= f < |flows| ==>
                if !Involved(old(history), event, f) then flows[f] == old(flows)[f]
                else if MadeBy(old(history), event, f) then
                  flows[f] == old(flows)[f].(status := Undone, machine := None)
                else BackAsBefore(old(history), event, f, flows[f])
      ensures r != Recorded ==> flows == old(flows) && history == old(history)
    {
      hide WellFormed, Quantities, NetZero, Conserves, Agrees, Undoable, Position, UndoHistory, BackAsBefore, MadeBy,
           Involved;
      if undo == event {
        return Refused;
      }
      if Knows(undo) {
        return Replayed;
      }
      var eligible := Eligible(event);
      if !eligible {
        return Refused;
      }
      var plan, open := Plan(site, event);
      if !open {
        return Refused;
      }
      UndoIsValid(history, flows, event, undo);
      UndoPlanned(history, flows, event, undo);
      history := UndoHistory(history, event, undo);
      flows := plan;
      r := Recorded;
    }

    /** The restoration of every flow, and whether the areas and machines it needs are in use. */
    method Plan(site: Site, event: nat) returns (plan: seq<Flow>, open: bool)
      ensures plan == UndoFlows(history, flows, event)
      ensures open <==> TargetsOpen(site, history, flows, event)
    {
      hide Position, MadeBy, Involved, Restored;
      plan, open := [], true;
      for f := 0 to |flows|
        invariant |plan| == f && forall g :: 0 <= g < f ==> plan[g] == Restored(history, event, g, flows[g])
        invariant open <==> forall g :: 0 <= g < f ==> TargetOpen(site, history, flows, event, g)
      {
        plan := plan + [Restored(history, event, f, flows[f])];
        open := open && TargetOpen(site, history, flows, event, f);
      }
    }
  }

  predicate EligibleRow(h: History, event: nat, k: nat) {
    k < |h.moves| && UndoableRow(h, event, k) && h.moves[k].kind != Received
  }

  lemma EligibleRows(h: History, event: nat)
    ensures var rows := CommandRows(h.moves, event, |h.moves|);
            (rows != [] && forall j :: 0 <= j < |rows| ==> EligibleRow(h, event, rows[j]))
            <==> Undoable(h, event) && ReceivedNothing(h, event)
  {
    hide UndoableRow;
    var rows := CommandRows(h.moves, event, |h.moves|);
    if rows != [] {
      assert h.moves[rows[0]].event == event;
    }
    if Undoable(h, event) && ReceivedNothing(h, event) {
      forall j | 0 <= j < |rows| ensures EligibleRow(h, event, rows[j]) {
        assert h.moves[rows[j]].event == event;
      }
    }
  }

  predicate ReceivedNothing(h: History, event: nat) {
    forall k :: 0 <= k < |h.moves| && h.moves[k].event == event ==> h.moves[k].kind != Received
  }

  /** The area and the machine that a reopened or moved flow returns to are in use. */
  predicate TargetOpen(site: Site, h: History, flows: seq<Flow>, event: nat, f: nat)
    requires f < |flows|
  {
    Involved(h, event, f) && !MadeBy(h, event, f) ==>
      var flow := Restored(h, event, f, flows[f]);
      flow.area in site.open && (flow.machine.Some? ==> flow.machine.value in site.machines)
  }

  predicate TargetsOpen(site: Site, h: History, flows: seq<Flow>, event: nat) {
    forall f :: 0 <= f < |flows| ==> TargetOpen(site, h, flows, event, f)
  }

  lemma UndoPlanned(h: History, flows: seq<Flow>, event: nat, undo: nat)
    requires ValidState(h, flows) && Undoable(h, event)
    requires undo != event && forall k :: 0 <= k < |h.moves| ==> h.moves[k].event != undo
    ensures forall f :: 0 <= f < |flows| ==>
              if !Involved(h, event, f) then UndoFlows(h, flows, event)[f] == flows[f]
              else if MadeBy(h, event, f) then
                UndoFlows(h, flows, event)[f] == flows[f].(status := Undone, machine := None)
              else BackAsBefore(h, event, f, UndoFlows(h, flows, event)[f])
  {
    hide ValidState, Undoable, Position, BackAsBefore, MadeBy, Involved;
    forall f | 0 <= f < |flows| && Involved(h, event, f) && !MadeBy(h, event, f)
      ensures BackAsBefore(h, event, f, UndoFlows(h, flows, event)[f])
    {
      RestoredAsBefore(h, flows, event, undo, f);
    }
  }

  lemma PushedRecords(h: History, flows: seq<Flow>, row: Movement)
    requires ValidState(h, flows) && row.flow < |flows| && flows[row.flow].status == Active
    requires IsAction(row.kind) && row.reverses.None? && row.quantity == flows[row.flow].quantity
    requires row.kind == Scrapped ==> row.area == flows[row.flow].area
    requires CanRecord(h.moves, row.event)
    ensures CanRecord(Pushed(h, row).moves, row.event)
  {
    hide WellFormed, Quantities, NetZero, Conserves, Agrees, Block, CanRecord;
    PushBlock(h, flows, row);
    PartsOf(h, |flows|);
    StillRecording(h, Pushed(h, row), |flows|, |flows|, row.event);
  }

  lemma SplitRecords(h: History, flows: seq<Flow>, f: nat, selected: nat, event: nat)
    requires ValidState(h, flows) && f < |flows| && flows[f].status == Active && selected <= flows[f].quantity
    requires CanRecord(h.moves, event)
    ensures CanRecord(SplitHistory(h, flows, f, selected, event).moves, event)
  {
    hide WellFormed, Quantities, NetZero, Conserves, Agrees, Block, CanRecord, SplitHistory;
    SplitBlock(h, flows, f, selected, event);
    SplitRows(h, flows, f, selected, event);
    PartsOf(h, |flows|);
    StillRecording(h, SplitHistory(h, flows, f, selected, event), |flows|, |flows| + 2, event);
  }

  // ---------------------------------------------------------------- runs

  datatype Command =
    | DoReceive(part: string, quantity: nat, area: nat, event: nat)
    | DoAdd(part: string, quantity: nat, area: nat, event: nat)
    | DoAssign(flow: nat, part: string, area: nat, quantity: nat, machine: nat, event: nat)
    | DoLeave(flow: nat, part: string, area: nat, quantity: nat, machine: nat, completes: bool, event: nat)
    | DoScrap(flow: nat, part: string, area: nat, quantity: nat, event: nat)
    | DoArrive(flow: nat, part: string, area: nat, target: nat, quantity: nat, stocking: bool, event: nat)
    | DoMerge(ids: seq<nat>, part: string, area: nat, event: nat)
    | DoUndo(event: nat, undo: nat)

  /** Any commands in any order, each under the configuration of its moment. */
  method Run(commands: seq<(Site, Command)>) returns (ledger: Ledger)
    ensures fresh(ledger) && ledger.Valid()
    ensures forall part :: Balanced(ledger.history, ledger.flows, part)
  {
    hide ValidState, Balanced;
    ledger := new Ledger();
    for i := 0 to |commands|
      invariant fresh(ledger) && ledger.Valid()
    {
      Perform(ledger, commands[i].0, commands[i].1);
    }
    forall part ensures Balanced(ledger.history, ledger.flows, part) {
      Balance(ledger.history, ledger.flows, part);
    }
  }

  method Perform(ledger: Ledger, site: Site, command: Command)
    requires ledger.Valid()
    modifies ledger
    ensures ledger.Valid()
  {
    hide ValidState;
    var outcome;
    match command
    case DoReceive(part, quantity, area, event) => outcome := ledger.Receive(site, part, quantity, area, event);
    case DoAdd(part, quantity, area, event) => outcome := ledger.AddQuantity(site, part, quantity, area, event);
    case DoAssign(f, part, area, quantity, machine, event) =>
      outcome := ledger.Assign(site, f, part, area, quantity, machine, event);
    case DoLeave(f, part, area, quantity, machine, completes, event) =>
      outcome := ledger.LeaveMachine(site, f, part, area, quantity, machine, completes, event);
    case DoScrap(f, part, area, quantity, event) => outcome := ledger.Scrap(site, f, part, area, quantity, event);
    case DoArrive(f, part, area, target, quantity, stocking, event) =>
      outcome := ledger.Arrive(site, f, part, area, target, quantity, stocking, event);
    case DoMerge(ids, part, area, event) => outcome := ledger.Merge(site, ids, part, area, event);
    case DoUndo(event, undo) => outcome := ledger.Undo(site, event, undo);
  }
}
