/** Which candidate databases the cleanup lists: those that only closed operations recorded. */
module DatabaseCleanup {

  import opened Wrappers
  import opened Operations
  import opened OperationGate

  type Name = string

  /** What an operation's records say about databases: the candidate names in them, and the candidate of each
      database switch by the position of its effect. */
  datatype Mentions = Mentions(recorded: seq<Name>, switchTo: map<nat, Name>)

  datatype Item = Item(name: Name, operation: Id)

  /** The operations, their classes and their mentions, in the order of the identifiers. */
  datatype Catalog = Catalog(files: seq<File>, classes: seq<Class>, mentions: seq<Mentions>) {

    ghost predicate Valid() {
      && DistinctIds(files) && AreClasses(files, classes) && |mentions| == |files|
      && forall i, e :: 0 <= i < |files| && Readable(i) && e in mentions[i].switchTo ==>
           e < |files[i].journal.states|
    }

    /** The index holds a plan and a journal for the entry. */
    predicate Readable(i: nat)
      requires i < |files| && AreClasses(files, classes)
      ensures Readable(i) ==> files[i].Recorded?
    {
      classes[i].Blocking? || classes[i].Superseded? || classes[i].Closed?
    }
  }

  /** The supersession chain ends in an operation that closed and was not cancelled. */
  ghost predicate Reconciled(files: seq<File>, classes: seq<Class>, i: nat)
    requires AreClasses(files, classes) && i < |files|
  {
    exists n, end :: EndsIn(files, classes, i, n, end) && IsSettled(files, classes, end)
  }

  predicate IsSettled(files: seq<File>, classes: seq<Class>, end: nat) {
    end < |files| == |classes| && classes[end] == Closed && files[end].Recorded?
    && files[end].journal.phase != Cancelled
  }

  ghost predicate IsClosed(files: seq<File>, classes: seq<Class>, i: nat)
    requires AreClasses(files, classes) && i < |files|
  {
    classes[i] == Closed || (classes[i].Superseded? && Reconciled(files, classes, i))
  }

  // ---------------------------------------------------------------- the end of a chain

  lemma {:induction false} NothingBehindTheEnd(files: seq<File>, classes: seq<Class>, i: nat, n: nat, end: nat, m: nat)
    requires |classes| == |files| && i < |files| && EndsIn(files, classes, i, n, end) && n < m
    ensures Link(files, classes, i, m).None?
  {
    if m > n + 1 {
      NothingBehindTheEnd(files, classes, i, n, end, m - 1);
    }
  }

  lemma OneEnd(files: seq<File>, classes: seq<Class>, i: nat, n: nat, a: nat, m: nat, b: nat)
    requires |classes| == |files| && i < |files|
    requires EndsIn(files, classes, i, n, a) && EndsIn(files, classes, i, m, b)
    ensures a == b
  {
    if n < m {
      NothingBehindTheEnd(files, classes, i, n, a, m);
    } else if m < n {
      NothingBehindTheEnd(files, classes, i, m, b, n);
    }
  }

  method OperationClosed(files: seq<File>, classes: seq<Class>, i: nat) returns (closed: bool)
    requires AreClasses(files, classes) && i < |files|
    ensures closed <==> IsClosed(files, classes, i)
  {
    hide IsClass, Link, IsSettled;
    if classes[i] == Closed {
      return true;
    }
    if !classes[i].Superseded? {
      return false;
    }
    var last := FinalSuperseder(files, classes, i);
    closed := last.Some? && IsSettled(files, classes, last.value);
    if last.Some? {
      ghost var n :| EndsIn(files, classes, i, n, last.value);
      forall m, end | EndsIn(files, classes, i, m, end) ensures end == last.value {
        OneEnd(files, classes, i, n, last.value, m, end);
      }
    }
  }

  // ---------------------------------------------------------------- what is listed

  ghost predicate KeepsName(c: Catalog, i: nat, name: Name)
    requires c.Valid() && i < |c.files|
  {
    c.Readable(i) && !IsClosed(c.files, c.classes, i) && name in c.mentions[i].recorded
  }

  /** An operation that is not closed recorded the name. */
  ghost predicate InUse(c: Catalog, name: Name)
    requires c.Valid()
  {
    exists i :: 0 <= i < |c.files| && KeepsName(c, i, name)
  }

  ghost predicate SwitchesAt(c: Catalog, i: nat, name: Name)
    requires c.Valid() && i < |c.files|
  {
    c.Readable(i) && exists e <- c.mentions[i].switchTo ::
      c.mentions[i].switchTo[e] == name && c.files[i].journal.states[e] != Complete
  }

  /** The database of a switch that did not complete. */
  ghost predicate HalfSwitched(c: Catalog, name: Name)
    requires c.Valid()
  {
    exists i :: 0 <= i < |c.files| && SwitchesAt(c, i, name)
  }

  ghost predicate RecordedBy(c: Catalog, i: nat, name: Name)
    requires c.Valid()
  {
    i < |c.files| && IsClosed(c.files, c.classes, i) && name in c.mentions[i].recorded
  }

  ghost predicate Cleanable(c: Catalog, databases: set<Name>, current: Option<Name>, name: Name)
    requires c.Valid()
  {
    && name in databases && current != Some(name)
    && (exists i: nat :: RecordedBy(c, i, name))
    && !InUse(c, name) && !HalfSwitched(c, name)
  }

  /** Every item names a closed operation that recorded its database. */
  ghost predicate AttributedTo(c: Catalog, items: seq<Item>)
    requires c.Valid()
  {
    forall k :: 0 <= k < |items| ==>
      exists i: nat :: RecordedBy(c, i, items[k].name) && items[k].operation == c.files[i].id
  }

  predicate IsListed(items: seq<Item>, name: Name) {
    exists k :: 0 <= k < |items| && items[k].name == name
  }

  /** The names that no cleanup may touch. */
  method NamesInUse(c: Catalog) returns (open: set<Name>, switching: set<Name>)
    requires c.Valid()
    ensures forall name :: name in open <==> InUse(c, name)
    ensures forall name :: name in switching <==> HalfSwitched(c, name)
  {
    hide IsClosed, AreClasses;
    open, switching := {}, {};
    for k := 0 to |c.files|
      invariant forall name :: name in open <==> exists i :: 0 <= i < k && KeepsName(c, i, name)
      invariant forall name :: name in switching <==> exists i :: 0 <= i < k && SwitchesAt(c, i, name)
    {
      if c.Readable(k) {
        var closed := OperationClosed(c.files, c.classes, k);
        if !closed {
          open := open + set name <- c.mentions[k].recorded;
        }
        assert forall name :: KeepsName(c, k, name) <==> !closed && name in c.mentions[k].recorded;
        var incomplete := set e <- c.mentions[k].switchTo | c.files[k].journal.states[e] != Complete
                            :: c.mentions[k].switchTo[e];
        assert forall name :: name in incomplete <==> SwitchesAt(c, k, name);
        switching := switching + incomplete;
      }
    }
  }

  /** Lists each cleanable database once, with a closed operation that recorded it, and nothing else. */
  method CleanupCandidates(c: Catalog, databases: set<Name>, current: Option<Name>) returns (items: seq<Item>)
    requires c.Valid()
    ensures forall name :: IsListed(items, name) <==> Cleanable(c, databases, current, name)
    ensures forall j, k :: 0 <= j < k < |items| ==> items[j].name != items[k].name
    ensures AttributedTo(c, items)
  {
    hide IsClosed, AreClasses, KeepsName, SwitchesAt;
    var open, switching := NamesInUse(c);
    items := [];
    for k := 0 to |c.files|
      invariant forall name :: IsListed(items, name) <==>
                  FreeOf(databases, current, open, switching, name)
                  && exists i: nat :: i < k && RecordedBy(c, i, name)
      invariant forall i, j :: 0 <= i < j < |items| ==> items[i].name != items[j].name
      invariant AttributedTo(c, items)
    {
      var closed := OperationClosed(c.files, c.classes, k);
      assert forall name :: RecordedBy(c, k, name) <==> closed && name in c.mentions[k].recorded;
      if closed {
        items := ListNames(c, k, items, databases - open - switching, current);
      }
    }
  }

  predicate FreeOf(databases: set<Name>, current: Option<Name>, open: set<Name>, switching: set<Name>, name: Name) {
    name in databases && current != Some(name) && name !in open && name !in switching
  }

  method ListNames(c: Catalog, k: nat, before: seq<Item>, free: set<Name>, current: Option<Name>)
    returns (items: seq<Item>)
    requires c.Valid() && k < |c.files| && IsClosed(c.files, c.classes, k) && AttributedTo(c, before)
    requires forall i, j :: 0 <= i < j < |before| ==> before[i].name != before[j].name
    ensures forall name :: IsListed(items, name) <==>
              IsListed(before, name) || (name in free && current != Some(name) && name in c.mentions[k].recorded)
    ensures forall i, j :: 0 <= i < j < |items| ==> items[i].name != items[j].name
    ensures AttributedTo(c, items)
  {
    hide IsClosed, AreClasses;
    items := before;
    var names := c.mentions[k].recorded;
    for n := 0 to |names|
      invariant forall name :: IsListed(items, name) <==>
                  IsListed(before, name) || (name in free && current != Some(name) && name in names[..n])
      invariant forall i, j :: 0 <= i < j < |items| ==> items[i].name != items[j].name
      invariant AttributedTo(c, items)
    {
      var name := names[n];
      assert names[..n + 1] == names[..n] + [name];
      if name in free && current != Some(name) && !IsListed(items, name) {
        assert RecordedBy(c, k, name);
        ListOne(items, Item(name, c.files[k].id));
        items := items + [Item(name, c.files[k].id)];
      }
    }
  }

  lemma ListOne(items: seq<Item>, item: Item)
    ensures forall name :: IsListed(items + [item], name) <==> IsListed(items, name) || name == item.name
  {
    forall name ensures IsListed(items + [item], name) <==> IsListed(items, name) || name == item.name {
      assert (items + [item])[|items|] == item;
      if k :| 0 <= k < |items| && items[k].name == name {
        assert (items + [item])[k].name == name;
      }
    }
  }

  // ---------------------------------------------------------------- over whole runs

  /** The end of a chain with at least one link took an operation over, so it was not cancelled. */
  lemma EndTookOver(files: seq<File>, classes: seq<Class>, i: nat, n: nat, end: nat)
    requires |classes| == |files| && Chained(files) && AreClasses(files, classes) && i < |files|
    requires EndsIn(files, classes, i, n, end) && n > 0
    ensures end < |files| && files[end].Recorded? && files[end].journal.phase != Cancelled
  {
    hide ValidPair, After;
    var k := Link(files, classes, i, n - 1).value;
    assert classes[k].Superseded? && NextLink(files, classes, k) == Some(end);
    assert IsClass(files, k, classes[k]);
    var j :| 0 <= j < |files| && TakesOver(files[j], files[k].id) && files[j].id == classes[k].taker;
    assert j == end;
  }

  /** In every state that obeys the gate, all recorded operations are closed for the cleanup exactly when
      nothing blocks: a chain of recoveries never stays unsettled behind a free gate. */
  lemma AllClosedWhenNothingBlocks(inst: Instance, classes: seq<Class>)
    requires Sound(inst) && AreClasses(inst.files, classes)
    ensures NothingBlocks(inst.files) <==>
            forall i :: 0 <= i < |inst.files| ==> IsClosed(inst.files, classes, i)
  {
    hide ValidPair, Link, BackupBeside, After;
    var files := inst.files;
    if NothingBlocks(files) {
      forall i | 0 <= i < |files| ensures IsClosed(files, classes, i) {
        assert IsClass(files, i, classes[i]) && files[i] in files && !IsBlocking(files, i);
        if classes[i].Superseded? {
          var n, end := ChainsEnd(files, classes, i);
          assert Link(files, classes, i, 0) == Some(i) by { NoLinks(files, classes, i); }
          EndTookOver(files, classes, i, n, end);
          assert IsClass(files, end, classes[end]) && files[end] in files && !IsBlocking(files, end);
          assert IsSettled(files, classes, end);
        }
      }
    } else {
      var i :| 0 <= i < |files| && IsBlocking(files, i);
      assert IsClass(files, i, classes[i]) && files[i] in files;
      assert !IsClosed(files, classes, i);
    }
  }

  /** With a free gate the cleanup is complete: it lists every recorded database but the current one and
      those of switches that did not complete. */
  lemma FreeGateListsAll(inst: Instance, c: Catalog, databases: set<Name>, current: Option<Name>, name: Name)
    requires c.Valid() && c.files == inst.files && Sound(inst) && NothingBlocks(inst.files)
    requires name in databases && current != Some(name) && !HalfSwitched(c, name)
    ensures Cleanable(c, databases, current, name)
            <==> exists i :: 0 <= i < |c.files| && name in c.mentions[i].recorded
  {
    hide HalfSwitched, Sound, IsClosed, AreClasses, NothingBlocks;
    AllClosedWhenNothingBlocks(inst, c.classes);
    if i :| 0 <= i < |c.files| && name in c.mentions[i].recorded {
      assert RecordedBy(c, i, name);
    }
  }
}
