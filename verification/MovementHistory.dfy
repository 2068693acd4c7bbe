/** The append-only history of production quantities: every position and every status is derived from
    movements and lineage, and an undone command counts no more. */
module MovementHistory {

  import opened Wrappers

  // ---------------------------------------------------------------- records

  datatype Kind =
    | Received | Adjusted | Assigned | Released | Completed | Transferred | Split | Merged | Scrapped | Stocked
    | Reversed

  /** `area` and `machine` are where the movement leads; `event` is the command it belongs to. */
  datatype Movement = Movement(flow: nat, kind: Kind, quantity: nat, source: Option<nat>, area: nat,
                               machine: Option<nat>, event: nat, reverses: Option<nat>)

  datatype Edge = Edge(parent: nat, child: nat, event: nat)

  datatype Status = Active | SplitUp | MergedInto | ScrappedOut | StockedAway | Undone

  datatype Flow = Flow(part: string, quantity: nat, status: Status, area: nat, machine: Option<nat>)

  /** Movements and edges are numbered in the order in which they are written; nothing is ever changed. */
  datatype History = History(moves: seq<Movement>, edges: seq<Edge>)

  predicate Introduces(kind: Kind) {
    kind in {Received, Adjusted}
  }

  predicate IsLineage(kind: Kind) {
    kind in {Split, Merged}
  }

  predicate Closes(kind: Kind) {
    kind in {Scrapped, Stocked}
  }

  /** Tells where the quantity is. */
  predicate Bears(kind: Kind) {
    !IsLineage(kind) && !Closes(kind) && kind != Reversed
  }

  function StatusAfter(kind: Kind): Status {
    match kind
    case Split => SplitUp
    case Merged => MergedInto
    case Scrapped => ScrappedOut
    case Stocked => StockedAway
    case _ => Active
  }

  // ---------------------------------------------------------------- what is read from the history

  predicate IsReversed(moves: seq<Movement>, k: nat) {
    exists r :: 0 <= r < |moves| && moves[r].reverses == Some(k)
  }

  /** Neither a reversal nor reversed. */
  predicate Effective(moves: seq<Movement>, k: nat) {
    k < |moves| && moves[k].kind != Reversed && !IsReversed(moves, k)
  }

  predicate Counts(moves: seq<Movement>, k: nat, f: nat, bearing: bool, skip: Option<nat>) {
    && Effective(moves, k) && moves[k].flow == f && (bearing ==> Bears(moves[k].kind))
    && skip != Some(moves[k].event)
  }

  /** The newest effective movement of a flow below `bound`, leaving out the command `skip`. */
  function Newest(moves: seq<Movement>, f: nat, bearing: bool, skip: Option<nat>, bound: nat): (r: Option<nat>)
    requires bound <= |moves|
    ensures r.Some? ==> r.value < bound && Counts(moves, r.value, f, bearing, skip)
    ensures r.Some? ==> forall k :: r.value < k < bound ==> !Counts(moves, k, f, bearing, skip)
    ensures r.None? ==> forall k :: 0 <= k < bound ==> !Counts(moves, k, f, bearing, skip)
  {
    if bound == 0 then None
    else if Counts(moves, bound - 1, f, bearing, skip) then Some(bound - 1)
    else Newest(moves, f, bearing, skip, bound - 1)
  }

  /** The first movement of a flow, reversed or not. */
  function First(moves: seq<Movement>, f: nat): (r: nat)
    ensures r <= |moves| && (r < |moves| ==> moves[r].flow == f)
    ensures forall k :: 0 <= k < r ==> moves[k].flow != f
  {
    FirstFrom(moves, f, 0)
  }

  function FirstFrom(moves: seq<Movement>, f: nat, from: nat): (r: nat)
    requires from <= |moves|
    ensures from <= r <= |moves| && (r < |moves| ==> moves[r].flow == f)
    ensures forall k :: from <= k < r ==> moves[k].flow != f
    decreases |moves| - from
  {
    if from == |moves| || moves[from].flow == f then from else FirstFrom(moves, f, from + 1)
  }

  predicate IsParent(edges: seq<Edge>, p: nat, f: nat) {
    exists e :: 0 <= e < |edges| && edges[e].parent == p && edges[e].child == f
  }

  /** The parent with the lowest number. */
  function LowestParent(edges: seq<Edge>, f: nat): (r: Option<nat>)
    ensures r.Some? ==> IsParent(edges, r.value, f)
    ensures r.Some? ==> forall p :: IsParent(edges, p, f) ==> r.value <= p
    ensures r.None? ==> forall p :: !IsParent(edges, p, f)
  {
    LowestOf(edges, f, |edges|)
  }

  function LowestOf(edges: seq<Edge>, f: nat, n: nat): (r: Option<nat>)
    requires n <= |edges|
    ensures r.Some? ==> exists e :: 0 <= e < n && edges[e].parent == r.value && edges[e].child == f
    ensures r.Some? ==> forall e :: 0 <= e < n && edges[e].child == f ==> r.value <= edges[e].parent
    ensures r.None? ==> forall e :: 0 <= e < n ==> edges[e].child != f
  {
    if n == 0 then None
    else
      var before := LowestOf(edges, f, n - 1);
      if edges[n - 1].child != f || (before.Some? && before.value <= edges[n - 1].parent) then before
      else Some(edges[n - 1].parent)
  }

  /** The movement that tells the position: the flow's own newest one, or that of its first parent before
      the descent. */
  function Position(h: History, f: nat, skip: Option<nat>, bound: nat): (r: Option<nat>)
    requires bound <= |h.moves|
    ensures r.Some? ==> r.value < |h.moves|
    decreases f
  {
    match Newest(h.moves, f, true, skip, bound)
    case Some(k) => Some(k)
    case None =>
      match LowestParent(h.edges, f)
      case None => None
      case Some(p) => if p < f then Position(h, p, skip, First(h.moves, f)) else None
  }

  predicate IsUndone(moves: seq<Movement>, event: nat) {
    exists k :: 0 <= k < |moves| && moves[k].event == event && IsReversed(moves, k)
  }

  predicate IsConsumed(h: History, f: nat) {
    exists e :: 0 <= e < |h.edges| && h.edges[e].parent == f && !IsUndone(h.moves, h.edges[e].event)
  }

  function Last(h: History, f: nat): (r: Option<nat>) {
    Newest(h.moves, f, false, None, |h.moves|)
  }

  /** The status that the history implies; none when lineage and movements contradict each other. */
  function ImpliedStatus(h: History, f: nat): Option<Status> {
    match Last(h, f)
    case None => Some(Undone)
    case Some(k) =>
      if IsConsumed(h, f) then
        if IsLineage(h.moves[k].kind) then Some(StatusAfter(h.moves[k].kind)) else None
      else if Closes(h.moves[k].kind) then Some(StatusAfter(h.moves[k].kind))
      else Some(Active)
  }

  /** The stored flow is what a replay of the history says. */
  predicate FlowAgrees(h: History, f: nat, flow: Flow) {
    && ImpliedStatus(h, f) == Some(flow.status)
    && (flow.status != Active ==> flow.machine.None?)
    && (flow.status == Active ==>
          && Last(h, f).Some? && flow.area == h.moves[Last(h, f).value].area
          && var position := Position(h, f, None, |h.moves|);
             position.Some? && flow.machine == h.moves[position.value].machine)
  }

  predicate Agrees(h: History, flows: seq<Flow>) {
    forall f :: 0 <= f < |flows| ==> FlowAgrees(h, f, flows[f])
  }

  // ---------------------------------------------------------------- what every history keeps

  predicate RowOk(moves: seq<Movement>, k: nat, n: nat)
    requires k < |moves|
  {
    && moves[k].flow < n
    && (moves[k].kind == Reversed <==> moves[k].reverses.Some?)
    && (moves[k].reverses.Some? ==>
          && moves[k].reverses.value < k && moves[moves[k].reverses.value].kind != Reversed
          && moves[moves[k].reverses.value].flow == moves[k].flow)
  }

  ghost predicate Rows(moves: seq<Movement>, n: nat) {
    forall k :: 0 <= k < |moves| ==> RowOk(moves, k, n)
  }

  /** The movements of a command stand together. */
  ghost predicate Contiguous(moves: seq<Movement>) {
    forall i, j, k :: 0 <= i < j < k < |moves| && moves[i].event == moves[k].event ==> moves[j].event == moves[i].event
  }

  /** A command is undone as a whole or not at all. */
  ghost predicate WholeCommands(moves: seq<Movement>) {
    forall i, k :: 0 <= i < |moves| && 0 <= k < |moves| && moves[i].event == moves[k].event
                   && moves[i].kind != Reversed && moves[k].kind != Reversed && IsReversed(moves, i)
                   ==> IsReversed(moves, k)
  }

  /** A flow begins with its introduction or its descent; no flow outlives that. */
  ghost predicate Born(moves: seq<Movement>, n: nat) {
    && (forall f :: 0 <= f < n ==>
          First(moves, f) < |moves|
          && (Introduces(moves[First(moves, f)].kind) || IsLineage(moves[First(moves, f)].kind)))
    && (forall k :: 0 <= k < |moves| && Introduces(moves[k].kind) ==> k == First(moves, moves[k].flow))
    && (forall k :: 0 <= k < |moves| && Effective(moves, k) ==> Effective(moves, First(moves, moves[k].flow)))
  }

  /** The movement ends the active life of its flow: scrap, stock, or consumption by a split or merge. */
  predicate Ends(moves: seq<Movement>, k: nat)
    requires k < |moves|
  {
    Closes(moves[k].kind) || Consumes(moves, k)
  }

  predicate Consumes(moves: seq<Movement>, k: nat)
    requires k < |moves|
  {
    IsLineage(moves[k].kind) && k != First(moves, moves[k].flow)
  }

  ghost predicate OpenUntilLast(moves: seq<Movement>) {
    forall j, k :: 0 <= j < k < |moves| && moves[j].flow == moves[k].flow && Effective(moves, j) && Effective(moves, k)
                   ==> !Ends(moves, j)
  }

  /** The parent was consumed by the command that made the child, before the child. */
  predicate EdgeAt(moves: seq<Movement>, edge: Edge, k: nat) {
    && edge.parent < edge.child && First(moves, edge.child) < |moves| && k < First(moves, edge.child)
    && moves[k].flow == edge.parent && moves[k].event == edge.event && Consumes(moves, k)
    && moves[First(moves, edge.child)].event == edge.event && IsLineage(moves[First(moves, edge.child)].kind)
  }

  ghost predicate EdgesOk(h: History, n: nat) {
    forall e :: 0 <= e < |h.edges| ==> EdgeOk(h.moves, h.edges[e], n)
  }

  ghost predicate EdgeOk(moves: seq<Movement>, edge: Edge, n: nat) {
    edge.child < n && exists k :: EdgeAt(moves, edge, k)
  }

  ghost predicate LineageRecorded(h: History, n: nat) {
    && (forall k :: 0 <= k < |h.moves| && Consumes(h.moves, k) ==>
          exists e :: 0 <= e < |h.edges| && h.edges[e].parent == h.moves[k].flow
              && h.edges[e].event == h.moves[k].event)
    && (forall f :: 0 <= f < n && First(h.moves, f) < |h.moves| && IsLineage(h.moves[First(h.moves, f)].kind) ==>
          LowestParent(h.edges, f).Some?)
  }

  /** Reversals come newest first: what is effective was never built on something reversed later. */
  ghost predicate NewestFirst(moves: seq<Movement>) {
    forall k, j, r :: (0 <= k < j < |moves| && 0 <= r < |moves| && moves[k].flow == moves[j].flow
                       && Effective(moves, j) && moves[r].reverses == Some(k)) ==> r < j
  }

  /** Lineage and scrap leave the quantity where it is. */
  ghost predicate PlaceKept(h: History, k: nat)
    requires k < |h.moves|
  {
    var position := Position(h, h.moves[k].flow, None, k + 1);
    position.Some? && h.moves[position.value].area == h.moves[k].area
  }

  ghost predicate PlacesKept(h: History) {
    forall k :: 0 <= k < |h.moves| && Effective(h.moves, k) && h.moves[k].kind != Stocked ==> PlaceKept(h, k)
  }

  ghost predicate WellFormed(h: History, n: nat) {
    && Rows(h.moves, n) && Contiguous(h.moves) && WholeCommands(h.moves) && Born(h.moves, n)
    && OpenUntilLast(h.moves) && EdgesOk(h, n) && LineageRecorded(h, n) && NewestFirst(h.moves) && PlacesKept(h)
  }

  // ---------------------------------------------------------------- status and consumption

  lemma SameCommand(h: History, n: nat, i: nat, k: nat)
    requires Rows(h.moves, n) && WholeCommands(h.moves) && Effective(h.moves, i) && k < |h.moves|
    requires h.moves[i].event == h.moves[k].event && h.moves[k].kind != Reversed
    ensures Effective(h.moves, k)
  {
  }

  lemma EndIsLast(h: History, k: nat)
    requires OpenUntilLast(h.moves) && Effective(h.moves, k) && Ends(h.moves, k)
    ensures Last(h, h.moves[k].flow) == Some(k)
  {
    hide First;
    var f := h.moves[k].flow;
    assert Counts(h.moves, k, f, false, None);
    LastCounts(h, f);
  }

  lemma LastCounts(h: History, f: nat)
    ensures Last(h, f).Some? ==> Last(h, f).value < |h.moves| && Counts(h.moves, Last(h, f).value, f, false, None)
    ensures Last(h, f).Some? ==>
              forall k :: Last(h, f).value < k < |h.moves| ==> !Counts(h.moves, k, f, false, None)
    ensures Last(h, f).None? ==> forall k :: 0 <= k < |h.moves| ==> !Counts(h.moves, k, f, false, None)
  {
  }

  /** A flow that lives descends from parents whose last movement is that descent. */
  lemma ParentEnded(h: History, n: nat, edge: Edge) returns (k: nat)
    requires WellFormed(h, n) && edge in h.edges && Effective(h.moves, First(h.moves, edge.child))
    ensures EdgeAt(h.moves, edge, k) && Effective(h.moves, k) && Last(h, edge.parent) == Some(k)
  {
    hide PlacesKept, NewestFirst, LineageRecorded, Position, Effective, Newest, First;
    var e :| 0 <= e < |h.edges| && h.edges[e] == edge;
    k :| EdgeAt(h.moves, edge, k);
    SameCommand(h, n, First(h.moves, edge.child), k);
    EndIsLast(h, k);
  }

  lemma ConsumedEnds(h: History, n: nat, e: nat) returns (k: nat)
    requires WellFormed(h, n) && e < |h.edges| && !IsUndone(h.moves, h.edges[e].event)
    ensures Last(h, h.edges[e].parent) == Some(k) && k < |h.moves| && Consumes(h.moves, k)
  {
    hide PlacesKept, NewestFirst, LineageRecorded, Position, Newest, First;
    k :| EdgeAt(h.moves, h.edges[e], k);
    assert Effective(h.moves, k);
    EndIsLast(h, k);
  }

  lemma NotUndone(h: History, n: nat, k: nat)
    requires Rows(h.moves, n) && WholeCommands(h.moves) && Effective(h.moves, k)
    ensures !IsUndone(h.moves, h.moves[k].event)
  {
    forall i | 0 <= i < |h.moves| && h.moves[i].event == h.moves[k].event
      ensures !IsReversed(h.moves, i)
    {
      if h.moves[i].kind != Reversed {
        SameCommand(h, n, k, i);
      } else {
        forall r | 0 <= r < |h.moves| ensures h.moves[r].reverses != Some(i) {
          assert RowOk(h.moves, r, n);
        }
      }
    }
  }

  /** Consumed means: the last movement is the consumption. */
  lemma ConsumedAtLast(h: History, n: nat, f: nat)
    requires WellFormed(h, n)
    ensures IsConsumed(h, f) <==> Last(h, f).Some? && Consumes(h.moves, Last(h, f).value)
  {
    hide PlacesKept, NewestFirst, Position, Newest, First, EdgesOk, Last, IsUndone;
    LastCounts(h, f);
    if e :| 0 <= e < |h.edges| && h.edges[e].parent == f && !IsUndone(h.moves, h.edges[e].event) {
      var k := ConsumedEnds(h, n, e);
    }
    if Last(h, f).Some? && Consumes(h.moves, Last(h, f).value) {
      NotUndone(h, n, Last(h, f).value);
    }
  }

  /** The status by the last movement alone. */
  function StatusAt(h: History, f: nat): Status {
    match Last(h, f)
    case None => Undone
    case Some(k) => if Ends(h.moves, k) then StatusAfter(h.moves[k].kind) else Active
  }

  /** Lineage and movements never contradict each other. */
  lemma StatusByLast(h: History, n: nat, f: nat)
    requires WellFormed(h, n)
    ensures ImpliedStatus(h, f) == Some(StatusAt(h, f))
    ensures StatusAt(h, f) == Active <==> Last(h, f).Some? && !Ends(h.moves, Last(h, f).value)
  {
    hide WellFormed, Newest, Last, IsConsumed;
    ConsumedAtLast(h, n, f);
    assert Last(h, f).Some? ==> Last(h, f).value < |h.moves| by { LastCounts(h, f); }
  }

  // ---------------------------------------------------------------- writing on

  /** Later rows and edges, none of them a reversal, and only edges to new flows. */
  ghost predicate Extends(h: History, h2: History, n: nat) {
    && h.moves <= h2.moves && h.edges <= h2.edges
    && (forall k :: |h.moves| <= k < |h2.moves| ==> h2.moves[k].reverses.None? && h2.moves[k].kind != Reversed)
    && (forall e :: |h.edges| <= e < |h2.edges| ==> h2.edges[e].child >= n)
  }

  lemma SameReversed(h: History, h2: History, n: nat, k: nat)
    requires Rows(h.moves, n) && Extends(h, h2, n)
    ensures k < |h.moves| ==> (IsReversed(h2.moves, k) <==> IsReversed(h.moves, k))
    ensures |h.moves| <= k ==> !IsReversed(h2.moves, k)
  {
    if r :| 0 <= r < |h2.moves| && h2.moves[r].reverses == Some(k) {
      assert r < |h.moves| && h.moves[r] == h2.moves[r] && RowOk(h.moves, r, n);
    }
    if r :| 0 <= r < |h.moves| && h.moves[r].reverses == Some(k) {
      assert h2.moves[r].reverses == Some(k);
    }
  }

  lemma SameEffective(h: History, h2: History, n: nat)
    requires Rows(h.moves, n) && Extends(h, h2, n)
    ensures forall k :: 0 <= k < |h.moves| ==> (Effective(h2.moves, k) <==> Effective(h.moves, k))
    ensures forall k :: |h.moves| <= k < |h2.moves| ==> Effective(h2.moves, k)
  {
    forall k | 0 <= k < |h2.moves|
      ensures k < |h.moves| ==> (Effective(h2.moves, k) <==> Effective(h.moves, k))
      ensures |h.moves| <= k ==> Effective(h2.moves, k)
    {
      SameReversed(h, h2, n, k);
    }
  }

  lemma SameFirst(h: History, h2: History, f: nat)
    requires h.moves <= h2.moves && First(h.moves, f) < |h.moves|
    ensures First(h2.moves, f) == First(h.moves, f)
  {
    var c := First(h.moves, f);
    assert h2.moves[c].flow == f;
    forall k | 0 <= k < c ensures h2.moves[k].flow != f {
      assert h2.moves[k] == h.moves[k];
    }
  }

  lemma SameNewest(h: History, h2: History, n: nat, f: nat, bearing: bool, bound: nat)
    requires Rows(h.moves, n) && Extends(h, h2, n) && bound <= |h.moves|
    ensures Newest(h2.moves, f, bearing, None, bound) == Newest(h.moves, f, bearing, None, bound)
  {
    SameEffective(h, h2, n);
    var a, b := Newest(h.moves, f, bearing, None, bound), Newest(h2.moves, f, bearing, None, bound);
    assert forall k :: 0 <= k < bound ==>
      (Counts(h2.moves, k, f, bearing, None) <==> Counts(h.moves, k, f, bearing, None));
  }

  lemma SameParents(h: History, h2: History, n: nat, f: nat)
    requires Extends(h, h2, n) && f < n
    ensures LowestParent(h2.edges, f) == LowestParent(h.edges, f)
  {
    forall p ensures IsParent(h2.edges, p, f) <==> IsParent(h.edges, p, f) {
      if e :| 0 <= e < |h.edges| && h.edges[e].parent == p && h.edges[e].child == f {
        assert h2.edges[e] == h.edges[e];
      }
      if e :| 0 <= e < |h2.edges| && h2.edges[e].parent == p && h2.edges[e].child == f {
        assert h2.edges[e] == h.edges[e];
      }
    }
  }

  /** What is written later moves no position of the past. */
  lemma {:induction false} SamePosition(h: History, h2: History, n: nat, f: nat, bound: nat)
    requires Rows(h.moves, n) && Born(h.moves, n) && Extends(h, h2, n) && f < n && bound <= |h.moves|
    ensures Position(h2, f, None, bound) == Position(h, f, None, bound)
    decreases f
  {
    hide Newest, First, LowestParent, Extends, IsParent;
    assert bound <= |h2.moves| by { MovesGrow(h, h2, n); }
    SameNewest(h, h2, n, f, true, bound);
    SameParents(h, h2, n, f);
    var p := LowestParent(h.edges, f);
    if Newest(h.moves, f, true, None, bound).None? && p.Some? && p.value < f {
      FirstIn(h, h2, n, f);
      SamePosition(h, h2, n, p.value, First(h.moves, f));
    }
  }

  lemma MovesGrow(h: History, h2: History, n: nat)
    requires Extends(h, h2, n)
    ensures |h.moves| <= |h2.moves| && |h.edges| <= |h2.edges|
    ensures forall k :: 0 <= k < |h.moves| ==> h2.moves[k] == h.moves[k]
    ensures forall e :: 0 <= e < |h.edges| ==> h2.edges[e] == h.edges[e]
  {
  }

  lemma FirstIn(h: History, h2: History, n: nat, f: nat)
    requires Born(h.moves, n) && Extends(h, h2, n) && f < n
    ensures First(h.moves, f) < |h.moves| && First(h2.moves, f) == First(h.moves, f)
  {
    SameFirst(h, h2, f);
  }

  /** The command may still be written to: it is new, or it is the one just being written. */
  ghost predicate CanRecord(moves: seq<Movement>, event: nat) {
    || (forall k :: 0 <= k < |moves| ==> moves[k].event != event)
    || (moves != [] && moves[|moves| - 1].event == event && Effective(moves, |moves| - 1))
  }

  /** One step of a command: rows on active flows, each at most one, and the flows that come into being. */
  ghost predicate Block(h: History, h2: History, n: nat, n2: nat, event: nat) {
    && Extends(h, h2, n) && n <= n2 && CanRecord(h.moves, event)
    && (forall k :: |h.moves| <= k < |h2.moves| ==> BlockRow(h, h2, n, n2, event, k))
    && (forall j, k :: |h.moves| <= j < k < |h2.moves| ==> h2.moves[j].flow != h2.moves[k].flow)
    && (forall j, k :: |h.moves| <= j < k < |h2.moves| && IsLineage(h2.moves[j].kind) && IsLineage(h2.moves[k].kind) ==>
          h2.moves[j].area == h2.moves[k].area)
    && (forall g :: n <= g < n2 ==> HasRow(h, h2, g))
    && (forall e :: |h.edges| <= e < |h2.edges| ==> NewEdge(h, h2, n, n2, event, h2.edges[e]))
  }

  ghost predicate BlockRow(h: History, h2: History, n: nat, n2: nat, event: nat, k: nat)
    requires k < |h2.moves|
  {
    var row := h2.moves[k];
    && row.event == event && row.flow < n2
    && (if row.flow < n then
          !Introduces(row.kind) && StatusAt(h, row.flow) == Active
          && (Bears(row.kind) || row.kind == Stocked || StaysAt(h, h2, k))
        else
          Introduces(row.kind) || IsLineage(row.kind))
    && (IsLineage(row.kind) ==> HasEdge(h, h2, k))
  }

  /** The row is written in the area where its flow is. */
  ghost predicate StaysAt(h: History, h2: History, k: nat)
    requires k < |h2.moves|
  {
    var last := Last(h, h2.moves[k].flow);
    last.Some? && last.value < |h.moves| && h2.moves[k].area == h.moves[last.value].area
  }

  predicate HasRow(h: History, h2: History, g: nat) {
    exists k :: |h.moves| <= k < |h2.moves| && h2.moves[k].flow == g
  }

  ghost predicate NewEdge(h: History, h2: History, n: nat, n2: nat, event: nat, edge: Edge) {
    && edge.parent < n <= edge.child < n2 && edge.event == event
    && exists j, k :: |h.moves| <= j < k < |h2.moves| && LineageRow(h2, j, edge.parent) && LineageRow(h2, k, edge.child)
  }

  predicate LineageRow(h: History, k: nat, f: nat) {
    k < |h.moves| && h.moves[k].flow == f && IsLineage(h.moves[k].kind)
  }

  ghost predicate HasEdge(h: History, h2: History, k: nat)
    requires k < |h2.moves|
  {
    exists e :: |h.edges| <= e < |h2.edges| && h2.moves[k].flow in {h2.edges[e].parent, h2.edges[e].child}
  }

  // ---------------------------------------------------------------- a step keeps the history well formed

  lemma BlockFirst(h: History, h2: History, n: nat, n2: nat, event: nat, k: nat)
    requires Rows(h.moves, n) && Born(h.moves, n) && Block(h, h2, n, n2, event) && |h.moves| <= k < |h2.moves|
    ensures h2.moves[k].flow >= n ==> First(h2.moves, h2.moves[k].flow) == k
    ensures h2.moves[k].flow < n ==> First(h2.moves, h2.moves[k].flow) < |h.moves|
    ensures Consumes(h2.moves, k) <==> IsLineage(h2.moves[k].kind) && h2.moves[k].flow < n
  {
    hide EdgesOk, NewEdge, HasEdge, StatusAt, Newest, StaysAt;
    var g := h2.moves[k].flow;
    if g < n {
      FirstIn(h, h2, n, g);
    } else {
      forall j | 0 <= j < k ensures h2.moves[j].flow != g {
        if j < |h.moves| {
          assert h2.moves[j] == h.moves[j] && RowOk(h.moves, j, n);
        }
      }
      assert First(h2.moves, g) >= k;
    }
  }

  lemma SameEnds(h: History, h2: History, n: nat, k: nat)
    requires Rows(h.moves, n) && Born(h.moves, n) && Extends(h, h2, n) && k < |h.moves|
    ensures Ends(h2.moves, k) <==> Ends(h.moves, k)
    ensures Consumes(h2.moves, k) <==> Consumes(h.moves, k)
    ensures h2.moves[k] == h.moves[k] && h.moves[k].flow < n
  {
    hide First;
    assert RowOk(h.moves, k, n);
    FirstIn(h, h2, n, h.moves[k].flow);
  }

  lemma RowsKeep(h: History, h2: History, n: nat, n2: nat, event: nat)
    requires Rows(h.moves, n) && Block(h, h2, n, n2, event)
    ensures Rows(h2.moves, n2)
  {
    hide HasEdge, StatusAt, StaysAt;
    forall k | 0 <= k < |h2.moves| ensures RowOk(h2.moves, k, n2) {
      if k < |h.moves| {
        assert h2.moves[k] == h.moves[k] && RowOk(h.moves, k, n);
      } else {
        assert BlockRow(h, h2, n, n2, event, k);
      }
    }
  }

  lemma ContiguousKeep(h: History, h2: History, n: nat, n2: nat, event: nat)
    requires Contiguous(h.moves) && Block(h, h2, n, n2, event)
    ensures Contiguous(h2.moves)
  {
    hide HasEdge, StatusAt, StaysAt, Effective;
    MovesGrow(h, h2, n);
    var last := |h.moves| - 1;
    forall i, j, k | 0 <= i < j < k < |h2.moves| && h2.moves[i].event == h2.moves[k].event
      ensures h2.moves[j].event == h2.moves[i].event
    {
      assert j >= |h.moves| ==> BlockRow(h, h2, n, n2, event, j);
      if k >= |h.moves| {
        assert BlockRow(h, h2, n, n2, event, k);
        assert i < |h.moves| && j < last ==> h.moves[i].event == h.moves[last].event ==>
               h.moves[j].event == h.moves[i].event;
      }
    }
  }

  lemma WholeKeep(h: History, h2: History, n: nat, n2: nat, event: nat)
    requires Rows(h.moves, n) && WholeCommands(h.moves) && Block(h, h2, n, n2, event)
    ensures WholeCommands(h2.moves)
  {
    hide HasEdge, StatusAt, StaysAt, IsReversed;
    MovesGrow(h, h2, n);
    forall i, k | 0 <= i < |h2.moves| && 0 <= k < |h2.moves| && h2.moves[i].event == h2.moves[k].event
                  && h2.moves[i].kind != Reversed && h2.moves[k].kind != Reversed && IsReversed(h2.moves, i)
      ensures IsReversed(h2.moves, k)
    {
      SameReversed(h, h2, n, i);
      SameReversed(h, h2, n, k);
      if k >= |h.moves| {
        NotReversedBefore(h, h2, n, n2, event, i, k);
      }
    }
  }

  lemma NotReversedBefore(h: History, h2: History, n: nat, n2: nat, event: nat, i: nat, k: nat)
    requires Rows(h.moves, n) && WholeCommands(h.moves) && Block(h, h2, n, n2, event) && i < |h2.moves|
    requires |h.moves| <= k < |h2.moves| && h2.moves[i].event == h2.moves[k].event && h2.moves[i].kind != Reversed
    ensures !IsReversed(h2.moves, i)
  {
    hide HasEdge, StatusAt, StaysAt, NewEdge;
    SameReversed(h, h2, n, i);
    assert BlockRow(h, h2, n, n2, event, k);
    if i < |h.moves| {
      assert h2.moves[i] == h.moves[i];
      SameCommand(h, n, |h.moves| - 1, i);
    }
  }

  lemma BornKeep(h: History, h2: History, n: nat, n2: nat, event: nat)
    requires Rows(h.moves, n) && Born(h.moves, n) && Block(h, h2, n, n2, event)
    ensures Born(h2.moves, n2)
  {
    hide HasEdge, StatusAt, StaysAt, IsReversed, First, NewEdge;
    MovesGrow(h, h2, n);
    SameEffective(h, h2, n);
    forall f | 0 <= f < n2
      ensures First(h2.moves, f) < |h2.moves|
      ensures Introduces(h2.moves[First(h2.moves, f)].kind) || IsLineage(h2.moves[First(h2.moves, f)].kind)
    {
      if f < n {
        FirstIn(h, h2, n, f);
      } else {
        assert HasRow(h, h2, f);
        var k :| |h.moves| <= k < |h2.moves| && h2.moves[k].flow == f;
        BlockFirst(h, h2, n, n2, event, k);
        assert BlockRow(h, h2, n, n2, event, k);
      }
    }
    forall k | 0 <= k < |h2.moves|
      ensures Introduces(h2.moves[k].kind) ==> k == First(h2.moves, h2.moves[k].flow)
      ensures Effective(h2.moves, k) ==> Effective(h2.moves, First(h2.moves, h2.moves[k].flow))
    {
      BornRow(h, h2, n, n2, event, k);
    }
  }

  lemma BornRow(h: History, h2: History, n: nat, n2: nat, event: nat, k: nat)
    requires Rows(h.moves, n) && Born(h.moves, n) && Block(h, h2, n, n2, event) && k < |h2.moves|
    ensures Introduces(h2.moves[k].kind) ==> k == First(h2.moves, h2.moves[k].flow)
    ensures Effective(h2.moves, k) ==> Effective(h2.moves, First(h2.moves, h2.moves[k].flow))
  {
    hide HasEdge, StaysAt, IsReversed, First, NewEdge;
    MovesGrow(h, h2, n);
    SameEffective(h, h2, n);
    var f := h2.moves[k].flow;
    if k < |h.moves| {
      assert RowOk(h.moves, k, n);
      FirstIn(h, h2, n, f);
    } else {
      BlockFirst(h, h2, n, n2, event, k);
      assert BlockRow(h, h2, n, n2, event, k);
      if f < n {
        LastCounts(h, f);
        FirstIn(h, h2, n, f);
      }
    }
  }

  lemma OpenKeep(h: History, h2: History, n: nat, n2: nat, event: nat)
    requires Rows(h.moves, n) && Born(h.moves, n) && OpenUntilLast(h.moves) && Block(h, h2, n, n2, event)
    ensures OpenUntilLast(h2.moves)
  {
    hide HasEdge, StaysAt, IsReversed, First, NewEdge, Born;
    MovesGrow(h, h2, n);
    SameEffective(h, h2, n);
    forall j, k | 0 <= j < k < |h2.moves| && h2.moves[j].flow == h2.moves[k].flow && Effective(h2.moves, j)
                  && Effective(h2.moves, k)
      ensures !Ends(h2.moves, j)
    {
      if j < |h.moves| {
        SameEnds(h, h2, n, j);
        if k >= |h.moves| {
          assert BlockRow(h, h2, n, n2, event, k);
          OpenBefore(h, h2.moves[k].flow, j);
        }
      }
    }
  }

  /** No movement of an active flow has ended it. */
  lemma OpenBefore(h: History, f: nat, j: nat)
    requires OpenUntilLast(h.moves) && StatusAt(h, f) == Active && Effective(h.moves, j) && h.moves[j].flow == f
    ensures !Ends(h.moves, j)
  {
    LastCounts(h, f);
    if Ends(h.moves, j) {
      EndIsLast(h, j);
    }
  }

  lemma EdgesKeep(h: History, h2: History, n: nat, n2: nat, event: nat)
    requires Rows(h.moves, n) && Born(h.moves, n) && EdgesOk(h, n) && Block(h, h2, n, n2, event)
    ensures EdgesOk(h2, n2)
  {
    hide Block, EdgeAt, Rows, Born, First;
    BlockExtends(h, h2, n, n2, event);
    MovesGrow(h, h2, n);
    forall e | 0 <= e < |h2.edges| ensures EdgeOk(h2.moves, h2.edges[e], n2) {
      if e < |h.edges| {
        var k :| EdgeAt(h.moves, h.edges[e], k);
        OldEdgeAt(h, h2, n, h.edges[e], k);
      } else {
        var j := NewEdgeAt(h, h2, n, n2, event, e);
      }
    }
  }

  lemma OldEdgeAt(h: History, h2: History, n: nat, edge: Edge, k: nat)
    requires Rows(h.moves, n) && Born(h.moves, n) && Extends(h, h2, n) && EdgeAt(h.moves, edge, k) && edge.child < n
    ensures EdgeAt(h2.moves, edge, k)
  {
    hide First, Rows, Born, Extends, Consumes, Ends;
    MovesGrow(h, h2, n);
    SameEnds(h, h2, n, k);
    FirstIn(h, h2, n, edge.child);
  }

  lemma NewEdgeAt(h: History, h2: History, n: nat, n2: nat, event: nat, e: nat) returns (j: nat)
    requires Rows(h.moves, n) && Born(h.moves, n) && Block(h, h2, n, n2, event) && |h.edges| <= e < |h2.edges|
    ensures h2.edges[e].child < n2 && EdgeAt(h2.moves, h2.edges[e], j)
  {
    hide First, Rows, Born, Extends, Consumes, StatusAt, StaysAt, HasEdge, CanRecord, HasRow, BlockRow;
    assert NewEdge(h, h2, n, n2, event, h2.edges[e]);
    var edge := h2.edges[e];
    var i, k :| |h.moves| <= i < k < |h2.moves| && LineageRow(h2, i, edge.parent) && LineageRow(h2, k, edge.child);
    j := i;
    BlockFirst(h, h2, n, n2, event, j);
    BlockFirst(h, h2, n, n2, event, k);
    BlockEvent(h, h2, n, n2, event, j);
    BlockEvent(h, h2, n, n2, event, k);
  }

  lemma BlockEvent(h: History, h2: History, n: nat, n2: nat, event: nat, k: nat)
    requires Block(h, h2, n, n2, event) && |h.moves| <= k < |h2.moves|
    ensures h2.moves[k].event == event && h2.moves[k].flow < n2 && h2.moves[k].kind != Reversed
    ensures h2.moves[k].flow >= n ==> (Introduces(h2.moves[k].kind) <==> !IsLineage(h2.moves[k].kind))
    ensures IsLineage(h2.moves[k].kind) ==> HasEdge(h, h2, k)
  {
    hide StatusAt, StaysAt, HasEdge, CanRecord, NewEdge, HasRow;
    assert BlockRow(h, h2, n, n2, event, k);
  }

  lemma LineageKeep(h: History, h2: History, n: nat, n2: nat, event: nat)
    requires Rows(h.moves, n) && Born(h.moves, n) && LineageRecorded(h, n) && Block(h, h2, n, n2, event)
    ensures LineageRecorded(h2, n2)
  {
    hide First, Born, Rows, Block, Consumes, LowestParent, LineageRecorded;
    forall k | 0 <= k < |h2.moves| && Consumes(h2.moves, k)
      ensures exists e :: 0 <= e < |h2.edges| && h2.edges[e].parent == h2.moves[k].flow
                && h2.edges[e].event == h2.moves[k].event
    {
      var e := ConsumptionEdge(h, h2, n, n2, event, k);
    }
    forall f | 0 <= f < n2 && First(h2.moves, f) < |h2.moves| && IsLineage(h2.moves[First(h2.moves, f)].kind)
      ensures LowestParent(h2.edges, f).Some?
    {
      DescentEdge(h, h2, n, n2, event, f);
    }
    RecordedFrom(h2, n2);
  }

  lemma RecordedFrom(h: History, n: nat)
    requires forall k :: 0 <= k < |h.moves| && Consumes(h.moves, k) ==>
               exists e :: 0 <= e < |h.edges| && h.edges[e].parent == h.moves[k].flow
                   && h.edges[e].event == h.moves[k].event
    requires forall f :: 0 <= f < n && First(h.moves, f) < |h.moves| && IsLineage(h.moves[First(h.moves, f)].kind) ==>
               LowestParent(h.edges, f).Some?
    ensures LineageRecorded(h, n)
  {
    hide First, LowestParent, Consumes;
  }

  lemma ConsumptionEdge(h: History, h2: History, n: nat, n2: nat, event: nat, k: nat) returns (e: nat)
    requires Rows(h.moves, n) && Born(h.moves, n) && LineageRecorded(h, n) && Block(h, h2, n, n2, event)
    requires k < |h2.moves| && Consumes(h2.moves, k)
    ensures e < |h2.edges| && h2.edges[e].parent == h2.moves[k].flow && h2.edges[e].event == h2.moves[k].event
  {
    hide First, Born, Rows, Consumes, Ends, LowestParent, Extends, StatusAt, StaysAt, CanRecord, HasRow, BlockRow;
    BlockExtends(h, h2, n, n2, event);
    MovesGrow(h, h2, n);
    if k < |h.moves| {
      SameEnds(h, h2, n, k);
      e :| 0 <= e < |h.edges| && h.edges[e].parent == h.moves[k].flow && h.edges[e].event == h.moves[k].event;
    } else {
      BlockFirst(h, h2, n, n2, event, k);
      BlockEvent(h, h2, n, n2, event, k);
      e :| |h.edges| <= e < |h2.edges| && h2.moves[k].flow in {h2.edges[e].parent, h2.edges[e].child};
      assert NewEdge(h, h2, n, n2, event, h2.edges[e]);
    }
  }

  lemma DescentEdge(h: History, h2: History, n: nat, n2: nat, event: nat, f: nat)
    requires Rows(h.moves, n) && Born(h.moves, n) && LineageRecorded(h, n) && Block(h, h2, n, n2, event) && f < n2
    requires First(h2.moves, f) < |h2.moves| && IsLineage(h2.moves[First(h2.moves, f)].kind)
    ensures LowestParent(h2.edges, f).Some?
  {
    hide First, Born, Rows, LowestParent, Extends, StatusAt, StaysAt, CanRecord, BlockRow, HasEdge, NewEdge;
    BlockExtends(h, h2, n, n2, event);
    MovesGrow(h, h2, n);
    if f < n {
      FirstIn(h, h2, n, f);
      SameParents(h, h2, n, f);
    } else {
      assert HasRow(h, h2, f);
      var k :| |h.moves| <= k < |h2.moves| && h2.moves[k].flow == f;
      BlockFirst(h, h2, n, n2, event, k);
      var e := NewChildEdge(h, h2, n, n2, event, k);
      assert IsParent(h2.edges, h2.edges[e].parent, f);
    }
  }

  lemma NewestFirstKeep(h: History, h2: History, n: nat)
    requires Rows(h.moves, n) && NewestFirst(h.moves) && Extends(h, h2, n)
    ensures NewestFirst(h2.moves)
  {
    hide IsReversed, First;
    MovesGrow(h, h2, n);
    SameEffective(h, h2, n);
  }

  // ---------------------------------------------------------------- positions after a step

  lemma NoneBetween(h: History, f: nat, bearing: bool, low: nat, high: nat)
    requires low <= high <= |h.moves| && forall k :: low <= k < high ==> !Counts(h.moves, k, f, bearing, None)
    ensures Newest(h.moves, f, bearing, None, high) == Newest(h.moves, f, bearing, None, low)
  {
  }

  lemma PositionBetween(h: History, f: nat, low: nat, high: nat)
    requires low <= high <= |h.moves| && forall k :: low <= k < high ==> !Counts(h.moves, k, f, true, None)
    ensures Position(h, f, None, high) == Position(h, f, None, low)
  {
    NoneBetween(h, f, true, low, high);
  }

  /** Rows that do not tell a position of `f` leave it where it was. */
  lemma PositionStays(h: History, h2: History, n: nat, f: nat, bound: nat)
    requires Rows(h.moves, n) && Born(h.moves, n) && Extends(h, h2, n) && f < n && |h.moves| <= bound <= |h2.moves|
    requires forall k :: |h.moves| <= k < bound && h2.moves[k].flow == f ==> !Bears(h2.moves[k].kind)
    ensures Position(h2, f, None, bound) == Position(h, f, None, |h.moves|)
  {
    hide IsReversed, First, Position, Newest;
    PositionBetween(h2, f, |h.moves|, bound);
    SamePosition(h, h2, n, f, |h.moves|);
  }

  /** An active flow is where its last movement led. */
  lemma ActivePlace(h: History, n: nat, f: nat)
    requires PlacesKept(h) && StatusAt(h, f) == Active
    ensures Last(h, f).Some? && Last(h, f).value < |h.moves|
    ensures var position := Position(h, f, None, |h.moves|);
            position.Some? && h.moves[position.value].area == h.moves[Last(h, f).value].area
  {
    hide Position, First, IsReversed;
    LastCounts(h, f);
    var k := Last(h, f).value;
    forall i | k < i < |h.moves| ensures !Counts(h.moves, i, f, true, None) {
      assert !Counts(h.moves, i, f, false, None);
    }
    PositionBetween(h, f, k + 1, |h.moves|);
    assert PlaceKept(h, k);
  }

  lemma PlacesKeep(h: History, h2: History, n: nat, n2: nat, event: nat)
    requires Rows(h.moves, n) && Born(h.moves, n) && EdgesOk(h, n) && PlacesKept(h) && Block(h, h2, n, n2, event)
    ensures PlacesKept(h2)
  {
    hide StaysAt, IsReversed, First, Born, StatusAt, HasEdge, Position, Block, Newest;
    assert Extends(h, h2, n) by { BlockExtends(h, h2, n, n2, event); }
    MovesGrow(h, h2, n);
    SameEffective(h, h2, n);
    forall k | 0 <= k < |h2.moves| && Effective(h2.moves, k) && h2.moves[k].kind != Stocked ensures PlaceKept(h2, k) {
      if k < |h.moves| {
        assert RowOk(h.moves, k, n) && PlaceKept(h, k);
        SamePosition(h, h2, n, h.moves[k].flow, k + 1);
      } else {
        BlockPlace(h, h2, n, n2, event, k);
      }
    }
  }

  lemma BlockExtends(h: History, h2: History, n: nat, n2: nat, event: nat)
    requires Block(h, h2, n, n2, event)
    ensures Extends(h, h2, n) && n <= n2 && CanRecord(h.moves, event)
  {
  }

  /** Where a row of the step says that its flow is. */
  lemma BlockPosition(h: History, h2: History, n: nat, n2: nat, event: nat, k: nat, bound: nat)
    requires Rows(h.moves, n) && Born(h.moves, n) && EdgesOk(h, n) && Block(h, h2, n, n2, event)
    requires |h.moves| <= k < bound <= |h2.moves|
    ensures Bears(h2.moves[k].kind) ==> Position(h2, h2.moves[k].flow, None, bound) == Some(k)
    ensures !Bears(h2.moves[k].kind) && h2.moves[k].flow < n ==>
              Position(h2, h2.moves[k].flow, None, bound) == Position(h, h2.moves[k].flow, None, |h.moves|)
    ensures !Bears(h2.moves[k].kind) && h2.moves[k].flow >= n ==>
              exists p: nat :: p < n && BlockParent(h, h2, n, k, p)
                          && Position(h2, h2.moves[k].flow, None, bound) == Position(h, p, None, |h.moves|)
  {
    hide IsReversed, Born, StaysAt;
    SameEffective(h, h2, n);
    var f := h2.moves[k].flow;
    assert BlockRow(h, h2, n, n2, event, k);
    if Bears(h2.moves[k].kind) {
      assert Counts(h2.moves, k, f, true, None);
      assert Newest(h2.moves, f, true, None, bound) == Some(k);
    } else if f < n {
      PositionStays(h, h2, n, f, bound);
    } else {
      BlockDescent(h, h2, n, n2, event, k, bound);
    }
  }

  /** `p` is consumed by the step that makes the flow of row `k`. */
  ghost predicate BlockParent(h: History, h2: History, n: nat, k: nat, p: nat) {
    && |h.moves| <= k < |h2.moves| && LowestParent(h2.edges, h2.moves[k].flow) == Some(p)
    && exists j :: |h.moves| <= j < k && LineageRow(h2, j, p)
  }

  lemma BlockDescent(h: History, h2: History, n: nat, n2: nat, event: nat, k: nat, bound: nat)
    requires Rows(h.moves, n) && Born(h.moves, n) && EdgesOk(h, n) && Block(h, h2, n, n2, event)
    requires |h.moves| <= k < bound <= |h2.moves| && !Bears(h2.moves[k].kind) && h2.moves[k].flow >= n
    ensures exists p: nat :: p < n && BlockParent(h, h2, n, k, p)
                        && Position(h2, h2.moves[k].flow, None, bound) == Position(h, p, None, |h.moves|)
  {
    hide IsReversed, Born, StaysAt, StatusAt, Newest, First;
    var f := h2.moves[k].flow;
    assert BlockRow(h, h2, n, n2, event, k);
    BlockFirst(h, h2, n, n2, event, k);
    var p := BlockLowest(h, h2, n, n2, event, k);
    assert Newest(h2.moves, f, true, None, bound).None? by { NewHasNoPosition(h, h2, n, n2, event, k, bound); }
    PositionStays(h, h2, n, p, k);
    assert Position(h2, f, None, bound) == Position(h2, p, None, k);
  }

  lemma NewHasNoPosition(h: History, h2: History, n: nat, n2: nat, event: nat, k: nat, bound: nat)
    requires Rows(h.moves, n) && Block(h, h2, n, n2, event) && |h.moves| <= k < bound <= |h2.moves|
    requires !Bears(h2.moves[k].kind) && h2.moves[k].flow >= n
    ensures Newest(h2.moves, h2.moves[k].flow, true, None, bound).None?
  {
    hide IsReversed, StaysAt, StatusAt, First, BlockRow, NewEdge;
    var f := h2.moves[k].flow;
    forall j | 0 <= j < bound ensures !Counts(h2.moves, j, f, true, None) {
      if j < |h.moves| {
        assert h2.moves[j] == h.moves[j] && RowOk(h.moves, j, n);
      }
    }
  }

  lemma BlockLowest(h: History, h2: History, n: nat, n2: nat, event: nat, k: nat) returns (p: nat)
    requires EdgesOk(h, n) && Block(h, h2, n, n2, event)
    requires |h.moves| <= k < |h2.moves| && !Bears(h2.moves[k].kind) && h2.moves[k].flow >= n
    ensures p < n && BlockParent(h, h2, n, k, p)
    ensures forall i :: |h.moves| <= i < |h2.moves| && h2.moves[i].flow == p ==> IsLineage(h2.moves[i].kind)
  {
    hide IsReversed, StaysAt, StatusAt, First, Newest, LowestParent, EdgeAt, NewEdge, HasEdge, CanRecord;
    var f := h2.moves[k].flow;
    var e := NewChildEdge(h, h2, n, n2, event, k);
    assert IsParent(h2.edges, h2.edges[e].parent, f);
    p := LowestParent(h2.edges, f).value;
    LowestIsParent(h2, f);
    var d :| 0 <= d < |h2.edges| && h2.edges[d].parent == p && h2.edges[d].child == f;
    MovesGrow(h, h2, n);
    assert d >= |h.edges|;
    NewEdgeRows(h, h2, n, n2, event, h2.edges[d], k);
  }

  lemma LowestIsParent(h: History, f: nat)
    ensures LowestParent(h.edges, f).Some? <==> exists p :: IsParent(h.edges, p, f)
    ensures LowestParent(h.edges, f).Some? ==> IsParent(h.edges, LowestParent(h.edges, f).value, f)
  {
  }

  lemma NewChildEdge(h: History, h2: History, n: nat, n2: nat, event: nat, k: nat) returns (e: nat)
    requires Block(h, h2, n, n2, event)
    requires |h.moves| <= k < |h2.moves| && !Bears(h2.moves[k].kind) && h2.moves[k].flow >= n
    ensures |h.edges| <= e < |h2.edges| && h2.edges[e].child == h2.moves[k].flow
  {
    hide IsReversed, StaysAt, StatusAt, CanRecord;
    assert BlockRow(h, h2, n, n2, event, k);
    var f := h2.moves[k].flow;
    e :| |h.edges| <= e < |h2.edges| && f in {h2.edges[e].parent, h2.edges[e].child};
    assert NewEdge(h, h2, n, n2, event, h2.edges[e]);
  }

  lemma NewEdgeRows(h: History, h2: History, n: nat, n2: nat, event: nat, edge: Edge, k: nat)
    requires Block(h, h2, n, n2, event) && edge in h2.edges[|h.edges|..]
    requires |h.moves| <= k < |h2.moves| && h2.moves[k].flow == edge.child
    ensures edge.parent < n && exists i :: |h.moves| <= i < k && LineageRow(h2, i, edge.parent)
    ensures forall i :: |h.moves| <= i < |h2.moves| && h2.moves[i].flow == edge.parent ==> IsLineage(h2.moves[i].kind)
  {
    hide IsReversed, StaysAt, StatusAt, CanRecord, HasEdge, BlockRow;
    assert NewEdge(h, h2, n, n2, event, edge);
    var i, j :| |h.moves| <= i < j < |h2.moves| && LineageRow(h2, i, edge.parent) && LineageRow(h2, j, edge.child);
    assert j == k;
  }

  lemma BlockPlace(h: History, h2: History, n: nat, n2: nat, event: nat, k: nat)
    requires Rows(h.moves, n) && Born(h.moves, n) && EdgesOk(h, n) && PlacesKept(h) && Block(h, h2, n, n2, event)
    requires |h.moves| <= k < |h2.moves| && h2.moves[k].kind != Stocked
    ensures PlaceKept(h2, k)
  {
    hide IsReversed, StatusAt, First, Newest, Position, Born, EdgesOk, PlacesKept, Last, HasEdge;
    BlockPosition(h, h2, n, n2, event, k, k + 1);
    assert BlockRow(h, h2, n, n2, event, k);
    var f := h2.moves[k].flow;
    MovesGrow(h, h2, n);
    if !Bears(h2.moves[k].kind) {
      if f < n {
        ActivePlace(h, n, f);
      } else {
        var p: nat :| p < n && BlockParent(h, h2, n, k, p)
            && Position(h2, f, None, k + 1) == Position(h, p, None, |h.moves|);
        var j :| |h.moves| <= j < k && LineageRow(h2, j, p);
        assert BlockRow(h, h2, n, n2, event, j);
        ActivePlace(h, n, p);
      }
    }
  }

  /** Every step of a command keeps the history well formed. */
  lemma BlockKeeps(h: History, h2: History, n: nat, n2: nat, event: nat)
    requires WellFormed(h, n) && Block(h, h2, n, n2, event)
    ensures WellFormed(h2, n2)
  {
    hide Rows, Contiguous, WholeCommands, Born, OpenUntilLast, EdgesOk, LineageRecorded, NewestFirst, PlacesKept, Block;
    BlockExtends(h, h2, n, n2, event);
    RowsKeep(h, h2, n, n2, event);
    ContiguousKeep(h, h2, n, n2, event);
    WholeKeep(h, h2, n, n2, event);
    BornKeep(h, h2, n, n2, event);
    OpenKeep(h, h2, n, n2, event);
    EdgesKeep(h, h2, n, n2, event);
    LineageKeep(h, h2, n, n2, event);
    NewestFirstKeep(h, h2, n);
    PlacesKeep(h, h2, n, n2, event);
  }

  // ---------------------------------------------------------------- projections after a step

  /** A flow without a row in the step keeps everything. */
  lemma UntouchedAgrees(h: History, h2: History, n: nat, n2: nat, event: nat, f: nat, flow: Flow)
    requires WellFormed(h, n) && WellFormed(h2, n2) && Block(h, h2, n, n2, event)
    requires f < n && !HasRow(h, h2, f) && FlowAgrees(h, f, flow)
    ensures FlowAgrees(h2, f, flow)
  {
    hide WholeCommands, OpenUntilLast, EdgesOk, LineageRecorded, NewestFirst, PlacesKept, Position, Newest, First,
         IsConsumed, NewEdge, BlockRow;
    StatusByLast(h, n, f);
    StatusByLast(h2, n2, f);
    NoneBetween(h2, f, false, |h.moves|, |h2.moves|);
    SameNewest(h, h2, n, f, false, |h.moves|);
    PositionStays(h, h2, n, f, |h2.moves|);
    LastCounts(h, f);
    if Last(h, f).Some? {
      SameEnds(h, h2, n, Last(h, f).value);
    }
  }

  /** What the step says about a flow it has a row of. */
  lemma TouchedStatus(h: History, h2: History, n: nat, n2: nat, event: nat, k: nat)
    requires WellFormed(h, n) && WellFormed(h2, n2) && Block(h, h2, n, n2, event) && |h.moves| <= k < |h2.moves|
    ensures Last(h2, h2.moves[k].flow) == Some(k)
    ensures ImpliedStatus(h2, h2.moves[k].flow)
         == Some(if Closes(h2.moves[k].kind) || (IsLineage(h2.moves[k].kind) && h2.moves[k].flow < n)
                 then StatusAfter(h2.moves[k].kind) else Active)
  {
    hide WellFormed, Block, First, ImpliedStatus, Consumes, Last;
    PartsOf(h, n);
    TouchedLast(h, h2, n, n2, event, k);
    StatusByLast(h2, n2, h2.moves[k].flow);
    BlockFirst(h, h2, n, n2, event, k);
  }

  lemma TouchedLast(h: History, h2: History, n: nat, n2: nat, event: nat, k: nat)
    requires Rows(h.moves, n) && Block(h, h2, n, n2, event) && |h.moves| <= k < |h2.moves|
    ensures Last(h2, h2.moves[k].flow) == Some(k)
  {
    hide First, IsReversed, NewEdge, BlockRow, StatusAt, CanRecord, HasRow;
    SameEffective(h, h2, n);
    LastCounts(h2, h2.moves[k].flow);
    assert Counts(h2.moves, k, h2.moves[k].flow, false, None);
  }

  // ---------------------------------------------------------------- undo

  /** The command may be undone: it is whole, it is the newest thing that happened to every flow it touched,
      it is no reversal and it stocked nothing. */
  predicate Undoable(h: History, event: nat) {
    && (exists k :: 0 <= k < |h.moves| && h.moves[k].event == event)
    && forall k :: 0 <= k < |h.moves| && h.moves[k].event == event ==> UndoableRow(h, event, k)
  }

  predicate UndoableRow(h: History, event: nat, k: nat)
    requires k < |h.moves|
  {
    && h.moves[k].kind !in {Reversed, Stocked} && Effective(h.moves, k)
    && var last := Last(h, h.moves[k].flow);
       last.Some? && last.value < |h.moves| && h.moves[last.value].event == event
  }

  /** What the undo writes: one reversal for every row of the command. */
  ghost predicate Reverses(h: History, h2: History, event: nat, undo: nat) {
    && h.moves <= h2.moves && h2.edges == h.edges && undo != event
    && (forall k :: 0 <= k < |h.moves| ==> h.moves[k].event != undo)
    && (forall r :: |h.moves| <= r < |h2.moves| ==> ReversalRow(h, h2.moves[r], event, undo))
    && (forall k :: 0 <= k < |h.moves| && h.moves[k].event == event ==> IsReversed(h2.moves, k))
  }

  predicate ReversalRow(h: History, row: Movement, event: nat, undo: nat) {
    && row.kind == Reversed && row.event == undo && row.reverses.Some? && row.reverses.value < |h.moves|
    && h.moves[row.reverses.value].event == event && h.moves[row.reverses.value].flow == row.flow
  }

  predicate Involved(h: History, event: nat, f: nat) {
    exists k :: 0 <= k < |h.moves| && h.moves[k].event == event && h.moves[k].flow == f
  }

  lemma UndoneReversed(h: History, h2: History, n: nat, event: nat, undo: nat, k: nat)
    requires Rows(h.moves, n) && Reverses(h, h2, event, undo) && k < |h.moves|
    ensures IsReversed(h2.moves, k) <==> IsReversed(h.moves, k) || h.moves[k].event == event
  {
    if r :| 0 <= r < |h2.moves| && h2.moves[r].reverses == Some(k) {
      if r < |h.moves| {
        assert h.moves[r].reverses == Some(k);
      }
    }
    if r :| 0 <= r < |h.moves| && h.moves[r].reverses == Some(k) {
      assert h2.moves[r].reverses == Some(k);
    }
  }

  lemma UndoneEffective(h: History, h2: History, n: nat, event: nat, undo: nat)
    requires Rows(h.moves, n) && Reverses(h, h2, event, undo)
    ensures forall k :: 0 <= k < |h.moves| ==>
              (Effective(h2.moves, k) <==> Effective(h.moves, k) && h.moves[k].event != event)
    ensures forall k :: |h.moves| <= k < |h2.moves| ==> !Effective(h2.moves, k)
  {
    hide IsReversed;
    forall k | 0 <= k < |h.moves|
      ensures Effective(h2.moves, k) <==> Effective(h.moves, k) && h.moves[k].event != event
    {
      UndoneReversed(h, h2, n, event, undo, k);
    }
  }

  lemma UndoGrows(h: History, h2: History, event: nat, undo: nat)
    requires Reverses(h, h2, event, undo)
    ensures |h.moves| <= |h2.moves| && h2.edges == h.edges
    ensures forall k :: 0 <= k < |h.moves| ==> h2.moves[k] == h.moves[k]
    ensures forall r :: |h.moves| <= r < |h2.moves| ==> ReversalRow(h, h2.moves[r], event, undo)
  {
  }

  /** Leaving the command out is reading the history after its undo. */
  lemma UndoneNewest(h: History, h2: History, n: nat, event: nat, undo: nat, f: nat, bearing: bool, bound: nat)
    requires Rows(h.moves, n) && Reverses(h, h2, event, undo) && bound <= |h.moves|
    ensures Newest(h2.moves, f, bearing, None, bound) == Newest(h.moves, f, bearing, Some(event), bound)
    ensures Newest(h2.moves, f, bearing, None, |h2.moves|) == Newest(h2.moves, f, bearing, None, |h.moves|)
  {
    hide IsReversed;
    UndoneEffective(h, h2, n, event, undo);
    UndoGrows(h, h2, event, undo);
    assert forall k :: 0 <= k < bound ==>
      (Counts(h2.moves, k, f, bearing, None) <==> Counts(h.moves, k, f, bearing, Some(event)));
    NoneBetween(h2, f, bearing, |h.moves|, |h2.moves|);
  }

  lemma UndoneFirst(h: History, h2: History, n: nat, event: nat, undo: nat, f: nat)
    requires Born(h.moves, n) && Reverses(h, h2, event, undo) && f < n
    ensures First(h.moves, f) < |h.moves| && First(h2.moves, f) == First(h.moves, f)
  {
    SameFirst(h, h2, f);
  }

  /** The position read without the command is the position after its undo. */
  lemma {:induction false} UndonePosition(h: History, h2: History, n: nat, event: nat, undo: nat, f: nat, bound: nat)
    requires Rows(h.moves, n) && Born(h.moves, n) && Reverses(h, h2, event, undo) && f < n && bound <= |h.moves|
    ensures bound <= |h2.moves|
    ensures Position(h2, f, None, bound) == Position(h, f, Some(event), bound)
    decreases f
  {
    hide IsReversed, Newest, First, LowestParent;
    UndoGrows(h, h2, event, undo);
    UndoneNewest(h, h2, n, event, undo, f, true, bound);
    var p := LowestParent(h.edges, f);
    if Newest(h.moves, f, true, Some(event), bound).None? && p.Some? && p.value < f {
      UndoneFirst(h, h2, n, event, undo, f);
      UndonePosition(h, h2, n, event, undo, p.value, First(h.moves, f));
    }
  }

  /** A movement that stands after a command of the same flow was undone stands before it. */
  lemma NoneWithin(h: History, n: nat, event: nat, j: nat, k: nat)
    requires Contiguous(h.moves) && Undoable(h, event) && j < k < |h.moves| && h.moves[j].flow == h.moves[k].flow
    requires h.moves[j].event == event && Effective(h.moves, k)
    ensures h.moves[k].event == event
  {
    hide IsReversed;
    var f := h.moves[k].flow;
    assert UndoableRow(h, event, j);
    LastCounts(h, f);
    assert Counts(h.moves, k, f, false, None);
  }

  lemma UndoBorn(h: History, h2: History, n: nat, event: nat, undo: nat)
    requires WellFormed(h, n) && Undoable(h, event) && Reverses(h, h2, event, undo)
    ensures Born(h2.moves, n)
  {
    hide IsReversed, First, Rows, WholeCommands, OpenUntilLast, EdgesOk, LineageRecorded, NewestFirst, PlacesKept,
         Undoable, Reverses;
    UndoGrows(h, h2, event, undo);
    UndoneEffective(h, h2, n, event, undo);
    forall f | 0 <= f < n
      ensures First(h2.moves, f) < |h2.moves| && First(h2.moves, f) == First(h.moves, f)
    {
      UndoneFirst(h, h2, n, event, undo, f);
    }
    forall k | 0 <= k < |h2.moves|
      ensures Introduces(h2.moves[k].kind) ==> k == First(h2.moves, h2.moves[k].flow)
      ensures Effective(h2.moves, k) ==> Effective(h2.moves, First(h2.moves, h2.moves[k].flow))
    {
      if k < |h.moves| {
        assert RowOk(h.moves, k, n) by { RowAt(h, n, k); }
        var c := First(h.moves, h.moves[k].flow);
        if Effective(h2.moves, k) && h.moves[c].event == event && c < k {
          NoneWithin(h, n, event, c, k);
        }
      }
    }
  }

  lemma RowAt(h: History, n: nat, k: nat)
    requires Rows(h.moves, n) && k < |h.moves|
    ensures RowOk(h.moves, k, n)
  {
  }

  lemma UndoRows(h: History, h2: History, n: nat, event: nat, undo: nat)
    requires Rows(h.moves, n) && Undoable(h, event) && Reverses(h, h2, event, undo)
    ensures Rows(h2.moves, n)
  {
    hide IsReversed, Last, Effective, Reverses, UndoableRow;
    UndoGrows(h, h2, event, undo);
    forall k | 0 <= k < |h2.moves| ensures RowOk(h2.moves, k, n) {
      UndoRow(h, h2, n, event, undo, k);
    }
  }

  lemma UndoRow(h: History, h2: History, n: nat, event: nat, undo: nat, k: nat)
    requires Rows(h.moves, n) && Undoable(h, event) && Reverses(h, h2, event, undo) && k < |h2.moves|
    ensures RowOk(h2.moves, k, n)
  {
    hide IsReversed, Last, Effective, Rows, Reverses;
    UndoGrows(h, h2, event, undo);
    if k < |h.moves| {
      RowAt(h, n, k);
    } else {
      var target := h2.moves[k].reverses.value;
      RowAt(h, n, target);
      assert UndoableRow(h, event, target);
    }
  }

  lemma UndoContiguous(h: History, h2: History, n: nat, event: nat, undo: nat)
    requires Contiguous(h.moves) && Reverses(h, h2, event, undo)
    ensures Contiguous(h2.moves)
  {
    hide IsReversed;
    UndoGrows(h, h2, event, undo);
  }

  lemma UndoWhole(h: History, h2: History, n: nat, event: nat, undo: nat)
    requires Rows(h.moves, n) && WholeCommands(h.moves) && Reverses(h, h2, event, undo)
    ensures WholeCommands(h2.moves)
  {
    hide IsReversed;
    UndoGrows(h, h2, event, undo);
    forall i, k | 0 <= i < |h2.moves| && 0 <= k < |h2.moves| && h2.moves[i].event == h2.moves[k].event
                  && h2.moves[i].kind != Reversed && h2.moves[k].kind != Reversed && IsReversed(h2.moves, i)
      ensures IsReversed(h2.moves, k)
    {
      UndoneReversed(h, h2, n, event, undo, i);
      UndoneReversed(h, h2, n, event, undo, k);
    }
  }

  lemma UndoneEnds(h: History, h2: History, n: nat, event: nat, undo: nat, k: nat)
    requires Rows(h.moves, n) && Born(h.moves, n) && Reverses(h, h2, event, undo) && k < |h2.moves|
    ensures k < |h.moves| ==> h.moves[k].flow < n && h2.moves[k] == h.moves[k]
    ensures k < |h.moves| ==>
              (Ends(h2.moves, k) <==> Ends(h.moves, k)) && (Consumes(h2.moves, k) <==> Consumes(h.moves, k))
    ensures k >= |h.moves| ==> !Ends(h2.moves, k) && !Consumes(h2.moves, k)
  {
    hide IsReversed, First;
    UndoGrows(h, h2, event, undo);
    if k < |h.moves| {
      RowAt(h, n, k);
      UndoneFirst(h, h2, n, event, undo, h.moves[k].flow);
    }
  }

  lemma UndoOpen(h: History, h2: History, n: nat, event: nat, undo: nat)
    requires Rows(h.moves, n) && Born(h.moves, n) && OpenUntilLast(h.moves) && Reverses(h, h2, event, undo)
    ensures OpenUntilLast(h2.moves)
  {
    hide IsReversed, First, Born, Rows, Reverses, Ends, Effective;
    UndoGrows(h, h2, event, undo);
    UndoneEffective(h, h2, n, event, undo);
    forall j, k | 0 <= j < k < |h2.moves| && h2.moves[j].flow == h2.moves[k].flow && Effective(h2.moves, j)
                  && Effective(h2.moves, k)
      ensures !Ends(h2.moves, j)
    {
      UndoneEnds(h, h2, n, event, undo, j);
    }
  }

  lemma UndoEdges(h: History, h2: History, n: nat, event: nat, undo: nat)
    requires Rows(h.moves, n) && Born(h.moves, n) && EdgesOk(h, n) && Reverses(h, h2, event, undo)
    ensures EdgesOk(h2, n)
  {
    hide EdgeAt, Born, Rows, Reverses;
    UndoGrows(h, h2, event, undo);
    forall e | 0 <= e < |h2.edges| ensures EdgeOk(h2.moves, h2.edges[e], n) {
      var k :| EdgeAt(h.moves, h.edges[e], k);
      UndoEdge(h, h2, n, event, undo, h.edges[e], k);
    }
  }

  lemma UndoEdge(h: History, h2: History, n: nat, event: nat, undo: nat, edge: Edge, k: nat)
    requires Rows(h.moves, n) && Born(h.moves, n) && Reverses(h, h2, event, undo) && edge.child < n
    requires EdgeAt(h.moves, edge, k)
    ensures EdgeAt(h2.moves, edge, k)
  {
    hide First, Born, Rows, Reverses, Consumes, Ends;
    UndoGrows(h, h2, event, undo);
    UndoneFirst(h, h2, n, event, undo, edge.child);
    UndoneEnds(h, h2, n, event, undo, k);
  }

  lemma UndoLineage(h: History, h2: History, n: nat, event: nat, undo: nat)
    requires Rows(h.moves, n) && Born(h.moves, n) && LineageRecorded(h, n) && Reverses(h, h2, event, undo)
    ensures LineageRecorded(h2, n)
  {
    hide IsReversed, First, Born, Rows, Reverses, Ends, Consumes, LowestParent;
    UndoGrows(h, h2, event, undo);
    forall k | 0 <= k < |h2.moves| && Consumes(h2.moves, k)
      ensures exists e :: 0 <= e < |h2.edges| && h2.edges[e].parent == h2.moves[k].flow
                && h2.edges[e].event == h2.moves[k].event
    {
      UndoneEnds(h, h2, n, event, undo, k);
    }
    forall f | 0 <= f < n && First(h2.moves, f) < |h2.moves| && IsLineage(h2.moves[First(h2.moves, f)].kind)
      ensures LowestParent(h2.edges, f).Some?
    {
      UndoneFirst(h, h2, n, event, undo, f);
    }
  }

  lemma UndoOrder(h: History, h2: History, n: nat, event: nat, undo: nat)
    requires WellFormed(h, n) && Undoable(h, event) && Reverses(h, h2, event, undo)
    ensures NewestFirst(h2.moves)
  {
    hide IsReversed, First, Born, OpenUntilLast, EdgesOk, LineageRecorded, PlacesKept, Undoable, WholeCommands;
    UndoGrows(h, h2, event, undo);
    UndoneEffective(h, h2, n, event, undo);
    forall k, j, r | 0 <= k < j < |h2.moves| && 0 <= r < |h2.moves| && h2.moves[k].flow == h2.moves[j].flow
                     && Effective(h2.moves, j) && h2.moves[r].reverses == Some(k)
      ensures r < j
    {
      if r >= |h.moves| {
        NoneWithin(h, n, event, k, j);
      }
    }
  }

  // ---------------------------------------------------------------- positions after an undo

  /** Whoever lives on after the undo descends from flows the command did not touch. */
  lemma ParentUntouched(h: History, h2: History, n: nat, event: nat, undo: nat, f: nat, p: nat)
    requires WellFormed(h, n) && Undoable(h, event) && Reverses(h, h2, event, undo) && f < n
    requires Effective(h2.moves, First(h2.moves, f)) && LowestParent(h.edges, f) == Some(p)
    ensures p < f && Effective(h2.moves, First(h2.moves, p))
    ensures forall j :: 0 <= j < |h.moves| && h.moves[j].flow == p && Effective(h.moves, j) ==>
              h.moves[j].event != event
  {
    hide IsReversed, First, WellFormed, LowestParent, Last, Effective, Undoable, Reverses;
    PartsOf(h, n);
    UndoneFirst(h, h2, n, event, undo, f);
    UndoneEffective(h, h2, n, event, undo);
    LowestIsParent(h, f);
    var e :| 0 <= e < |h.edges| && h.edges[e].parent == p && h.edges[e].child == f;
    var k := ParentEnded(h, n, h.edges[e]);
    UndoneFirst(h, h2, n, event, undo, p);
    BornAt(h, n, k);
    LastElsewhere(h, event, p, k);
    assert h.moves[First(h.moves, p)].event != event;
  }

  lemma BornAt(h: History, n: nat, k: nat)
    requires Born(h.moves, n) && k < |h.moves| && Effective(h.moves, k)
    ensures First(h.moves, h.moves[k].flow) < |h.moves| && Effective(h.moves, First(h.moves, h.moves[k].flow))
    ensures h.moves[First(h.moves, h.moves[k].flow)].flow == h.moves[k].flow
  {
  }

  /** A flow whose last movement is not of the command has no effective row of it. */
  lemma LastElsewhere(h: History, event: nat, p: nat, k: nat)
    requires Undoable(h, event) && Last(h, p) == Some(k) && k < |h.moves| && h.moves[k].event != event
    ensures forall j :: 0 <= j < |h.moves| && h.moves[j].flow == p ==> h.moves[j].event != event
  {
    hide IsReversed, First, Effective, Last;
    forall j | 0 <= j < |h.moves| && h.moves[j].flow == p ensures h.moves[j].event != event {
      assert h.moves[j].event == event ==> UndoableRow(h, event, j);
    }
  }

  lemma {:induction false} PositionUntouched(h: History, h2: History, n: nat, event: nat, undo: nat, f: nat, bound: nat)
    requires WellFormed(h, n) && Undoable(h, event) && Reverses(h, h2, event, undo) && f < n && bound <= |h.moves|
    requires Effective(h2.moves, First(h2.moves, f))
    requires forall j :: 0 <= j < bound && h.moves[j].flow == f && Effective(h.moves, j) ==> h.moves[j].event != event
    ensures bound <= |h2.moves| && Position(h2, f, None, bound) == Position(h, f, None, bound)
    decreases f
  {
    hide IsReversed, First, WellFormed, LowestParent, Undoable, Reverses, Newest;
    UndoGrows(h, h2, event, undo);
    NewestUntouched(h, h2, n, event, undo, f, true, bound);
    UndoneFirst(h, h2, n, event, undo, f) by { assert Born(h.moves, n) by { PartsOf(h, n); } }
    var p := LowestParent(h.edges, f);
    if Newest(h.moves, f, true, None, bound).None? && p.Some? && p.value < f {
      ParentUntouched(h, h2, n, event, undo, f, p.value);
      PositionUntouched(h, h2, n, event, undo, p.value, First(h.moves, f));
    }
  }

  lemma PartsOf(h: History, n: nat)
    requires WellFormed(h, n)
    ensures Rows(h.moves, n) && Born(h.moves, n) && Contiguous(h.moves) && PlacesKept(h)
  {
  }

  lemma NewestUntouched(h: History, h2: History, n: nat, event: nat, undo: nat, f: nat, bearing: bool, bound: nat)
    requires WellFormed(h, n) && Reverses(h, h2, event, undo) && bound <= |h.moves|
    requires forall j :: 0 <= j < bound && h.moves[j].flow == f && Effective(h.moves, j) ==> h.moves[j].event != event
    ensures bound <= |h2.moves| && Newest(h2.moves, f, bearing, None, bound) == Newest(h.moves, f, bearing, None, bound)
  {
    hide IsReversed, WellFormed;
    PartsOf(h, n);
    UndoGrows(h, h2, event, undo);
    UndoneEffective(h, h2, n, event, undo);
    assert forall k :: 0 <= k < bound ==>
      (Counts(h2.moves, k, f, bearing, None) <==> Counts(h.moves, k, f, bearing, None));
  }

  lemma UndoPlaces(h: History, h2: History, n: nat, event: nat, undo: nat)
    requires WellFormed(h, n) && Undoable(h, event) && Reverses(h, h2, event, undo) && Born(h2.moves, n)
    ensures PlacesKept(h2)
  {
    hide IsReversed, First, WellFormed, Undoable, Reverses, Position;
    PartsOf(h, n);
    UndoGrows(h, h2, event, undo);
    UndoneEffective(h, h2, n, event, undo);
    forall k | 0 <= k < |h2.moves| && Effective(h2.moves, k) && h2.moves[k].kind != Stocked ensures PlaceKept(h2, k) {
      RowAt(h, n, k);
      assert PlaceKept(h, k);
      NoneBefore(h, h2, n, event, undo, k);
      PositionUntouched(h, h2, n, event, undo, h.moves[k].flow, k + 1);
    }
  }

  /** Up to an effective row that an undo leaves, the undone command has no effective row of that flow. */
  lemma NoneBefore(h: History, h2: History, n: nat, event: nat, undo: nat, k: nat)
    requires WellFormed(h, n) && Undoable(h, event) && Reverses(h, h2, event, undo)
    requires k < |h.moves| && Effective(h.moves, k) && h.moves[k].event != event
    ensures forall j :: 0 <= j < k + 1 && h.moves[j].flow == h.moves[k].flow && Effective(h.moves, j) ==>
              h.moves[j].event != event
  {
    hide IsReversed, First, WellFormed, Undoable, Reverses, Position;
    PartsOf(h, n);
    forall j | 0 <= j < k + 1 && h.moves[j].flow == h.moves[k].flow && Effective(h.moves, j)
      ensures h.moves[j].event != event
    {
      if h.moves[j].event == event && j < k {
        NoneWithin(h, n, event, j, k);
      }
    }
  }

  /** An undo keeps the history well formed. */
  lemma UndoKeeps(h: History, h2: History, n: nat, event: nat, undo: nat)
    requires WellFormed(h, n) && Undoable(h, event) && Reverses(h, h2, event, undo)
    ensures WellFormed(h2, n)
  {
    hide Rows, Contiguous, WholeCommands, Born, OpenUntilLast, EdgesOk, LineageRecorded, NewestFirst, PlacesKept,
         Undoable, Reverses;
    UndoRows(h, h2, n, event, undo);
    UndoContiguous(h, h2, n, event, undo);
    UndoWhole(h, h2, n, event, undo);
    UndoBorn(h, h2, n, event, undo);
    UndoOpen(h, h2, n, event, undo);
    UndoEdges(h, h2, n, event, undo);
    UndoLineage(h, h2, n, event, undo);
    UndoOrder(h, h2, n, event, undo);
    UndoPlaces(h, h2, n, event, undo);
  }

  // ---------------------------------------------------------------- projections after an undo

  lemma UninvolvedRows(h: History, event: nat, f: nat)
    requires !Involved(h, event, f)
    ensures forall j :: 0 <= j < |h.moves| && h.moves[j].flow == f ==> h.moves[j].event != event
  {
  }

  /** A flow that the command did not touch keeps everything. */
  lemma UninvolvedAgrees(h: History, h2: History, n: nat, event: nat, undo: nat, f: nat, flow: Flow)
    requires WellFormed(h, n) && WellFormed(h2, n) && Undoable(h, event) && Reverses(h, h2, event, undo)
    requires f < n && !Involved(h, event, f) && FlowAgrees(h, f, flow)
    ensures FlowAgrees(h2, f, flow)
  {
    hide WellFormed, Undoable, Reverses, Position, First, IsConsumed, Involved, Newest, IsReversed, Effective;
    PartsOf(h, n);
    PartsOf(h2, n);
    UndoGrows(h, h2, event, undo);
    UninvolvedRows(h, event, f);
    StatusByLast(h, n, f);
    StatusByLast(h2, n, f);
    NewestUntouched(h, h2, n, event, undo, f, false, |h.moves|);
    UndoneNewest(h, h2, n, event, undo, f, false, |h.moves|);
    LastCounts(h, f);
    if Last(h, f).Some? {
      UndoneEnds(h, h2, n, event, undo, Last(h, f).value);
    }
    if flow.status == Active {
      BornAt(h2, n, Last(h2, f).value);
      PositionUntouched(h, h2, n, event, undo, f, |h.moves|);
      PositionAtEnd(h, h2, n, event, undo, f);
    }
  }

  lemma PositionAtEnd(h: History, h2: History, n: nat, event: nat, undo: nat, f: nat)
    requires Rows(h.moves, n) && Reverses(h, h2, event, undo)
    ensures |h.moves| <= |h2.moves| && Position(h2, f, None, |h2.moves|) == Position(h2, f, None, |h.moves|)
  {
    hide IsReversed;
    UndoneNewest(h, h2, n, event, undo, f, true, 0);
  }

  /** The command made this flow. */
  predicate MadeBy(h: History, event: nat, f: nat) {
    First(h.moves, f) < |h.moves| && h.moves[First(h.moves, f)].event == event
  }

  /** A flow that the command made is gone. */
  lemma MadeIsGone(h: History, h2: History, n: nat, event: nat, undo: nat, f: nat)
    requires WellFormed(h, n) && Undoable(h, event) && Reverses(h, h2, event, undo) && f < n && MadeBy(h, event, f)
    ensures ImpliedStatus(h2, f) == Some(Undone)
  {
    hide WellFormed, Undoable, Reverses, First, IsConsumed, Newest, IsReversed, Effective;
    PartsOf(h, n);
    UndoneEffective(h, h2, n, event, undo);
    UndoGrows(h, h2, event, undo);
    LastCounts(h2, f);
    if Last(h2, f).Some? {
      var k := Last(h2, f).value;
      NoneWithin(h, n, event, First(h.moves, f), k);
    }
  }

  /** A flow that the command touched and did not make is active again, where the plan says. */
  lemma TouchedIsActive(h: History, h2: History, n: nat, event: nat, undo: nat, f: nat)
    requires WellFormed(h, n) && WellFormed(h2, n) && Undoable(h, event) && Reverses(h, h2, event, undo)
    requires f < n && Involved(h, event, f) && !MadeBy(h, event, f)
    ensures ImpliedStatus(h2, f) == Some(Active)
    ensures Last(h2, f).Some? && Last(h2, f).value < |h.moves|
    ensures var planned := Position(h, f, Some(event), |h.moves|);
            && planned.Some? && Position(h2, f, None, |h2.moves|) == planned
               && h2.moves[planned.value] == h.moves[planned.value]
            && h2.moves[Last(h2, f).value].area == h.moves[planned.value].area
  {
    hide WellFormed, Undoable, Reverses, First, IsConsumed, Newest, IsReversed, Position;
    PartsOf(h, n);
    PartsOf(h2, n);
    UndoneEffective(h, h2, n, event, undo);
    UndoGrows(h, h2, event, undo);
    var k :| 0 <= k < |h.moves| && h.moves[k].event == event && h.moves[k].flow == f;
    UndoableAt(h, event, k);
    var l := EarlierStays(h, h2, n, event, undo, f, k);
    LastCounts(h2, f);
    assert Counts(h2.moves, l, f, false, None);
    var last := Last(h2, f).value;
    StatusByLast(h2, n, f);
    NotEnded(h, h2, n, event, undo, f, last, k);
    ActivePlace(h2, n, f);
    UndonePosition(h, h2, n, event, undo, f, |h.moves|);
    PositionAtEnd(h, h2, n, event, undo, f);
  }

  lemma UndoableAt(h: History, event: nat, k: nat)
    requires Undoable(h, event) && k < |h.moves| && h.moves[k].event == event
    ensures UndoableRow(h, event, k)
  {
  }

  lemma EarlierStays(h: History, h2: History, n: nat, event: nat, undo: nat, f: nat, k: nat) returns (c: nat)
    requires Rows(h.moves, n) && Born(h.moves, n) && Reverses(h, h2, event, undo) && f < n && !MadeBy(h, event, f)
    requires k < |h.moves| && h.moves[k].flow == f && Effective(h.moves, k)
    ensures c < |h.moves| && Effective(h2.moves, c) && h2.moves[c].flow == f
  {
    hide Rows, Reverses, First, IsReversed;
    UndoneEffective(h, h2, n, event, undo);
    UndoGrows(h, h2, event, undo);
    c := First(h.moves, f);
    BornAt(h, n, k);
  }

  lemma NotEnded(h: History, h2: History, n: nat, event: nat, undo: nat, f: nat, j: nat, k: nat)
    requires WellFormed(h, n) && Undoable(h, event) && Reverses(h, h2, event, undo)
    requires k < |h.moves| && h.moves[k].flow == f && h.moves[k].event == event
    requires j < |h2.moves| && Effective(h2.moves, j) && h2.moves[j].flow == f
    ensures j < |h.moves| && !Ends(h2.moves, j)
  {
    hide Undoable, Reverses, First, IsReversed, WholeCommands, Contiguous, EdgesOk, LineageRecorded, NewestFirst,
         PlacesKept, Last, Ends;
    UndoneEffective(h, h2, n, event, undo);
    UndoGrows(h, h2, event, undo);
    UndoableAt(h, event, k);
    UndoneEnds(h, h2, n, event, undo, j);
    if Ends(h.moves, j) {
      EndIsLast(h, j);
    }
  }

  // ---------------------------------------------------------------- an undo restores the past

  /** The history as it was when it had `s` movements. */
  function Past(h: History, s: nat): History
    requires s <= |h.moves|
  {
    History(h.moves[..s], h.edges)
  }

  ghost predicate SameRows(h: History, s: nat, g: nat, bound: nat)
    requires s <= |h.moves|
  {
    forall k :: 0 <= k < bound && k < s && h.moves[k].flow == g ==>
      (Effective(Past(h, s).moves, k) <==> Effective(h.moves, k))
  }

  /** Below something that still counts, what counted then counts now. */
  lemma PastRow(h: History, n: nat, s: nat, k: nat, j: nat)
    requires Rows(h.moves, n) && NewestFirst(h.moves) && k < s <= |h.moves| && k < j < |h.moves|
    requires h.moves[k].flow == h.moves[j].flow && Effective(h.moves, j)
    requires forall r :: s <= r < j ==> h.moves[r].kind != Reversed
    ensures Effective(Past(h, s).moves, k) <==> Effective(h.moves, k)
  {
    var past := Past(h, s).moves;
    if r :| 0 <= r < |past| && past[r].reverses == Some(k) {
      assert h.moves[r].reverses == Some(k);
    }
    if r :| 0 <= r < |h.moves| && h.moves[r].reverses == Some(k) {
      RowAt(h, n, r);
      assert r < s && past[r].reverses == Some(k);
    }
  }

  lemma PastNewest(h: History, s: nat, g: nat, bearing: bool, bound: nat)
    requires bound <= s <= |h.moves| && SameRows(h, s, g, bound)
    ensures Newest(Past(h, s).moves, g, bearing, None, bound) == Newest(h.moves, g, bearing, None, bound)
  {
    hide IsReversed, Effective;
    assert forall k :: 0 <= k < bound ==>
      (Counts(Past(h, s).moves, k, g, bearing, None) <==> Counts(h.moves, k, g, bearing, None));
  }

  /** A parent of a living flow was then what it is now. */
  lemma ParentRows(h: History, n: nat, s: nat, edge: Edge)
    requires WellFormed(h, n) && edge in h.edges && s <= |h.moves| && First(h.moves, edge.child) < s
    requires Effective(h.moves, First(h.moves, edge.child))
    ensures SameRows(h, s, edge.parent, First(h.moves, edge.child))
    ensures First(h.moves, edge.parent) < s && Effective(h.moves, First(h.moves, edge.parent))
              && edge.parent < edge.child
  {
    hide WellFormed, Newest, IsReversed, First, Effective;
    PartsOf(h, n);
    var c := First(h.moves, edge.child);
    var j := ParentEnded(h, n, edge);
    BornAt(h, n, j);
    forall k | 0 <= k < c && k < s && h.moves[k].flow == edge.parent
      ensures Effective(Past(h, s).moves, k) <==> Effective(h.moves, k)
    {
      if k < j {
        PastRow(h, n, s, k, j) by { assert NewestFirst(h.moves) by { OrderOf(h, n); } }
      } else if k == j {
        StillThen(h, s, k);
      } else {
        AfterTheEnd(h, n, s, edge.parent, j, k, c);
      }
    }
  }

  lemma OrderOf(h: History, n: nat)
    requires WellFormed(h, n)
    ensures NewestFirst(h.moves)
  {
  }

  lemma StillThen(h: History, s: nat, k: nat)
    requires k < s <= |h.moves| && Effective(h.moves, k)
    ensures Effective(Past(h, s).moves, k)
  {
    var past := Past(h, s).moves;
    forall r | 0 <= r < |past| ensures past[r].reverses != Some(k) {
      assert past[r] == h.moves[r];
    }
  }

  lemma AfterTheEnd(h: History, n: nat, s: nat, p: nat, j: nat, k: nat, c: nat)
    requires WellFormed(h, n) && Last(h, p) == Some(j) && j < k < c < |h.moves| && k < s <= |h.moves|
    requires h.moves[k].flow == p && h.moves[j].event == h.moves[c].event && Effective(h.moves, j)
    ensures !Effective(Past(h, s).moves, k) && !Effective(h.moves, k)
  {
    hide Born, OpenUntilLast, EdgesOk, LineageRecorded, NewestFirst, PlacesKept, IsReversed;
    LastCounts(h, p);
    assert !Counts(h.moves, k, p, false, None);
    assert h.moves[k].event == h.moves[j].event;
    if h.moves[k].kind != Reversed {
      SameCommand(h, n, j, k);
    }
  }

  lemma PastFirst(h: History, s: nat, g: nat)
    requires s <= |h.moves| && First(h.moves, g) < s
    ensures First(Past(h, s).moves, g) == First(h.moves, g)
  {
    assert Past(h, s).moves[First(h.moves, g)].flow == g;
    forall k | 0 <= k < First(h.moves, g) ensures Past(h, s).moves[k].flow != g {
      assert Past(h, s).moves[k] == h.moves[k];
    }
  }

  /** A living flow was then where it reads as being then. */
  lemma {:induction false} PastPosition(h: History, n: nat, s: nat, g: nat, bound: nat)
    requires WellFormed(h, n) && bound <= s <= |h.moves| && First(h.moves, g) < s
               && Effective(h.moves, First(h.moves, g))
    requires SameRows(h, s, g, bound)
    ensures Position(Past(h, s), g, None, bound) == Position(h, g, None, bound)
    decreases g
  {
    hide WellFormed, Newest, IsReversed, First, Effective, LowestParent, SameRows;
    PastNewest(h, s, g, true, bound);
    PastFirst(h, s, g);
    var p := LowestParent(h.edges, g);
    if Newest(h.moves, g, true, None, bound).None? && p.Some? {
      LowestIsParent(h, g);
      var e :| 0 <= e < |h.edges| && h.edges[e].parent == p.value && h.edges[e].child == g;
      ParentRows(h, n, s, h.edges[e]);
      PastPosition(h, n, s, p.value, First(h.moves, g));
    }
  }

  /** `s` is where the command begins. */
  ghost predicate Begins(h: History, event: nat, s: nat) {
    s < |h.moves| && h.moves[s].event == event && forall k :: 0 <= k < s ==> h.moves[k].event != event
  }

  /** Whatever happened to other flows in between: an undo puts every flow that the command touched and did
      not make back where it was when the command began. */
  lemma UndoRestores(h: History, h2: History, n: nat, event: nat, undo: nat, s: nat, f: nat)
    requires WellFormed(h, n) && WellFormed(h2, n) && Undoable(h, event) && Reverses(h, h2, event, undo)
    requires f < n && Involved(h, event, f) && !MadeBy(h, event, f) && Begins(h, event, s)
    ensures Last(h2, f) == Newest(Past(h, s).moves, f, false, None, s) && Last(h2, f).Some?
    ensures Position(h2, f, None, |h2.moves|) == Position(Past(h, s), f, None, s)
  {
    hide WellFormed, Undoable, Reverses, First, Newest, IsReversed, Position, Effective, SameRows, Involved, Last;
    PartsOf(h, n);
    UndoGrows(h, h2, event, undo);
    RowsBefore(h, n, event, s, f);
    NoneLater(h, h2, n, event, undo, s, f);
    var c := StartsBefore(h, h2, n, event, undo, s, f);
    UninvolvedBefore(h, event, s, f);
    PositionBetween(h2, f, s, |h2.moves|);
    PositionUntouched(h, h2, n, event, undo, f, s);
    PastPosition(h, n, s, f, s);
    LastRestored(h, h2, n, event, undo, s, f, c);
  }

  lemma UninvolvedBefore(h: History, event: nat, s: nat, f: nat)
    requires Begins(h, event, s)
    ensures forall j :: 0 <= j < s && h.moves[j].flow == f && Effective(h.moves, j) ==> h.moves[j].event != event
  {
  }

  lemma LastRestored(h: History, h2: History, n: nat, event: nat, undo: nat, s: nat, f: nat, c: nat)
    requires WellFormed(h, n) && Reverses(h, h2, event, undo) && Begins(h, event, s) && SameRows(h, s, f, s)
    requires |h.moves| <= |h2.moves| && forall k :: s <= k < |h2.moves| ==> !Counts(h2.moves, k, f, false, None)
    requires c < |h2.moves| && Effective(h2.moves, c) && h2.moves[c].flow == f
    ensures Last(h2, f) == Newest(Past(h, s).moves, f, false, None, s) && Last(h2, f).Some?
  {
    hide WellFormed, Reverses, Newest, IsReversed, Effective, SameRows;
    NoneBetween(h2, f, false, s, |h2.moves|);
    UninvolvedBefore(h, event, s, f);
    NewestUntouched(h, h2, n, event, undo, f, false, s);
    PastNewest(h, s, f, false, s);
    assert Counts(h2.moves, c, f, false, None);
    LastCounts(h2, f);
  }

  /** After the undo, nothing of a touched flow counts from the command on. */
  lemma NoneLater(h: History, h2: History, n: nat, event: nat, undo: nat, s: nat, f: nat)
    requires WellFormed(h, n) && Undoable(h, event) && Reverses(h, h2, event, undo)
    requires Involved(h, event, f) && Begins(h, event, s)
    ensures |h.moves| <= |h2.moves|
    ensures forall k, bearing :: s <= k < |h2.moves| ==> !Counts(h2.moves, k, f, bearing, None)
  {
    hide WellFormed, Undoable, Reverses, IsReversed, Effective, Involved;
    PartsOf(h, n);
    UndoneEffective(h, h2, n, event, undo);
    UndoGrows(h, h2, event, undo);
    forall k, bearing | s <= k < |h2.moves| ensures !Counts(h2.moves, k, f, bearing, None) {
      if k < |h.moves| && Effective(h.moves, k) && h.moves[k].flow == f {
        WithinCommand(h, n, event, s, k);
      }
    }
  }

  lemma StartsBefore(h: History, h2: History, n: nat, event: nat, undo: nat, s: nat, f: nat) returns (c: nat)
    requires WellFormed(h, n) && WellFormed(h2, n) && Undoable(h, event) && Reverses(h, h2, event, undo)
    requires f < n && Involved(h, event, f) && !MadeBy(h, event, f) && Begins(h, event, s)
    requires |h.moves| <= |h2.moves| && forall k :: s <= k < |h2.moves| ==> !Counts(h2.moves, k, f, false, None)
    ensures c < s && Effective(h2.moves, c) && h2.moves[c].flow == f
    ensures First(h.moves, f) < s && First(h2.moves, f) == First(h.moves, f)
    ensures Effective(h2.moves, First(h2.moves, f)) && Effective(h.moves, First(h.moves, f))
  {
    hide WellFormed, Undoable, Reverses, IsReversed, Effective, First;
    PartsOf(h, n);
    PartsOf(h2, n);
    var j :| 0 <= j < |h.moves| && h.moves[j].event == event && h.moves[j].flow == f;
    UndoableAt(h, event, j);
    c := EarlierStays(h, h2, n, event, undo, f, j);
    assert Counts(h2.moves, c, f, false, None);
    BornAt(h2, n, c);
    BornAt(h, n, j);
    UndoneFirst(h, h2, n, event, undo, f);
  }

  /** Between the first row of the command and what still counts of a touched flow, all is the command's. */
  lemma WithinCommand(h: History, n: nat, event: nat, s: nat, k: nat)
    requires WellFormed(h, n) && Undoable(h, event) && s <= k < |h.moves| && h.moves[s].event == event
    requires Effective(h.moves, k) && Involved(h, event, h.moves[k].flow)
    ensures h.moves[k].event == event
  {
    hide Rows, WholeCommands, Born, OpenUntilLast, EdgesOk, LineageRecorded, NewestFirst, PlacesKept, IsReversed, First,
         Effective;
    var f := h.moves[k].flow;
    var j :| 0 <= j < |h.moves| && h.moves[j].event == event && h.moves[j].flow == f;
    UndoableAt(h, event, j);
    LastCounts(h, f);
    assert Counts(h.moves, k, f, false, None);
  }

  lemma NoReversalWithin(h: History, event: nat, s: nat, j: nat)
    requires Contiguous(h.moves) && Undoable(h, event) && s <= j < |h.moves|
    requires h.moves[s].event == event && h.moves[j].event == event
    ensures forall r :: s <= r < j ==> h.moves[r].kind != Reversed
  {
    hide Undoable, Last, Effective;
    forall r | s <= r < j ensures h.moves[r].kind != Reversed {
      assert h.moves[r].event == event;
      UndoableAt(h, event, r);
    }
  }

  lemma RowsBefore(h: History, n: nat, event: nat, s: nat, f: nat)
    requires WellFormed(h, n) && Undoable(h, event) && Begins(h, event, s) && Involved(h, event, f)
    ensures SameRows(h, s, f, s)
  {
    hide WellFormed, Undoable, IsReversed, First, Effective, Last;
    PartsOf(h, n);
    OrderOf(h, n);
    var j :| 0 <= j < |h.moves| && h.moves[j].event == event && h.moves[j].flow == f;
    UndoableAt(h, event, j);
    NoReversalWithin(h, event, s, j);
    forall k | 0 <= k < s && h.moves[k].flow == f
      ensures Effective(Past(h, s).moves, k) <==> Effective(h.moves, k)
    {
      PastRow(h, n, s, k, j);
    }
  }
}
