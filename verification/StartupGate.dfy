/** The startup gate: inspect a fixed plan of runtime objects, take the runtime
    lock, repair what can be repaired, and refuse everything else. */
module StartupGate {
  import opened Common
  import opened SecurityDescriptor

  /** A path below the runtime root. */
  datatype Path = Root | In(dir: Path, name: string)

  datatype Target = Target(path: Path, directory: bool, required: bool)

  const LOCK := In(Root, ".runtime.lock")
  const DATA := In(Root, "data")

  /** The ordered plan. */
  const PLAN: seq<Target> := [
    Target(Root, true, true),
    Target(In(Root, "agent_config.json"), false, false),
    Target(In(Root, "enrollment_state.json"), false, false),
    Target(In(Root, ".env"), false, false),
    Target(LOCK, false, false),
    Target(In(Root, "agent_config.json.dpapi-user-v1.bak"), false, false),
    Target(In(Root, "logs"), true, false),
    Target(DATA, true, false),
    Target(In(DATA, "downloads"), true, false)]

  /** An object on disk: its structural defect, if any, and its descriptor. */
  datatype Item = Item(defect: Option<string>, descriptor: Option<Descriptor>)

  type Tree = map<Path, Item>

  datatype Pinned = Pinned(path: Path, directory: bool, root: bool, parent: Option<nat>)

  function Inspect(item: Item, directory: bool, root: bool): Assessment {
    match item.defect
    case Some(what) => UnsafeAssessment(Structural(what))
    case None => Classify(item.descriptor, directory, root)
  }

  function ClassAt(tree: Tree, o: Pinned): Class {
    if o.path in tree then Inspect(tree[o.path], o.directory, o.root).class_ else Unsafe
  }

  function TargetClass(tree: Tree, t: Target): Class {
    if t.path in tree then Inspect(tree[t.path], t.directory, t.required).class_ else Canonical
  }

  /** The lock file as the gate creates it: explicit protected access list. */
  const NEW_LOCK := Item(None, Some(Repaired(
    Descriptor(true, Some(Administrators), true, true, true, true, Some([])), false)))

  function RepairItem(item: Item, directory: bool): Item {
    match item.descriptor
    case None => item
    case Some(d) => item.(descriptor := Some(Repaired(d, directory)))
  }

  /** A repair fixes everything that was not unsafe. */
  lemma RepairFixes(item: Item, directory: bool, root: bool)
    requires Inspect(item, directory, root).class_ != Unsafe
    ensures Inspect(RepairItem(item, directory), directory, root).class_ == Canonical
  {
    RepairIsCanonical(item.descriptor.value, directory, root);
  }

  lemma NewLockCanonical()
    ensures Inspect(NEW_LOCK, false, false).class_ == Canonical
  {
    RepairIsCanonical(Descriptor(true, Some(Administrators), true, true, true, true, Some([])), false, false);
  }

  /** Every directory of the plan comes before what lies in it. */
  lemma PlanIsTopological(k: nat)
    requires 0 < k < |PLAN|
    ensures PLAN[k].path.In? && exists j :: 0 <= j < k && PLAN[j].path == PLAN[k].path.dir && PLAN[j].directory
  {
    if k == 8 {
      assert PLAN[7].path == PLAN[8].path.dir && PLAN[7].directory;
    } else {
      assert PLAN[0].path == PLAN[k].path.dir && PLAN[0].directory;
    }
  }

  datatype Failure =
    | PathRefused(path: Path)     // missing root, unreadable or locked object, lock file not creatable
    | UnsafeObject(path: Path)
    | LockBusy
    | AncestorRefused
    | CancelledRun
    | RepairFailed(path: Path)
    | ParentFailed(path: Path)
    | PostRepairFailed(path: Path)

  /** A directory above the root, as it shows when it is opened without following links. */
  datatype Ancestor = Ancestor(opens: bool, readable: bool, link: bool, directory: bool, resolvesToItself: bool) {
    predicate Sound() { opens && readable && !link && directory && resolvesToItself }
  }

  predicate AllSound(ancestors: seq<Ancestor>) {
    forall i :: 0 <= i < |ancestors| ==> ancestors[i].Sound()
  }

  /** How a call to the system turns out. */
  datatype Call = Call(effect: bool, reported: bool) {
    predicate Succeeds() { effect && reported }
  }

  /** The calls of one start: opening each planned object, creating and taking the lock,
      and for each object the cancellation check and the repair. */
  datatype Operation =
    | OpenObject(path: Path)
    | CreateLock
    | TakeLock
    | Proceed(path: Path)
    | RepairObject(path: Path)

  type Script = Operation -> Call

  ghost predicate FaultFree(script: Script) {
    forall operation :: script(operation).Succeeds()
  }

  /** A repair as it happened. */
  datatype RepairEvent = RepairEvent(path: Path, lockHeld: bool, before: Tree)

  /** The repair happened under the lock, with the directory around the object
      already canonical. */
  ghost predicate Proper(e: RepairEvent) {
    && e.lockHeld
    && e.path in e.before
    && (e.path.In? ==>
          && e.path.dir in e.before
          && Inspect(e.before[e.path.dir], true, e.path.dir == Root).class_ == Canonical)
  }

  ghost predicate ProperSince(repairs: seq<RepairEvent>, since: nat) {
    forall i :: since <= i < |repairs| ==> Proper(repairs[i])
  }

  /** Pinned objects in plan order: the root first, parents before children, and
      every one of them present. */
  ghost predicate Pins(objects: seq<Pinned>, tree: Tree) {
    && (forall i, j :: 0 <= i < j < |objects| ==> objects[i].path != objects[j].path)
    && (forall k :: 0 <= k < |objects| ==> PinOk(objects, k) && objects[k].path in tree)
  }

  ghost predicate PinOk(objects: seq<Pinned>, k: nat)
    requires k < |objects|
  {
    var o := objects[k];
    && o.root == (o.path == Root)
    && (o.parent.None? ==> o.path == Root)
    && (o.parent.Some? ==>
          && o.parent.value < k && o.path != Root
          && objects[o.parent.value].path == o.path.dir && objects[o.parent.value].directory)
  }

  /** A file system: whatever exists, its directory exists. */
  ghost predicate Closed(tree: Tree) {
    forall path :: path in tree && path.In? ==> path.dir in tree
  }

  /** Nothing else changed, and what changed is an old object with a new list. */
  ghost predicate OnlyRepaired(before: Tree, after: Tree, objects: seq<Pinned>) {
    && after.Keys == before.Keys
    && forall path :: path in before ==>
         after[path] == before[path] ||
         exists k :: 0 <= k < |objects| && objects[k].path == path
                     && after[path] == RepairItem(before[path], objects[k].directory)
  }

  /** Repairing one object leaves the class of every other one alone. */
  lemma OthersKept(before: Tree, after: Tree, objects: seq<Pinned>, k: nat)
    requires Pins(objects, before) && k < |objects|
    requires after == before ||
             after == before[objects[k].path := RepairItem(before[objects[k].path], objects[k].directory)]
    ensures Pins(objects, after)
    ensures forall j :: 0 <= j < |objects| && j != k ==> ClassAt(after, objects[j]) == ClassAt(before, objects[j])
  {}

  lemma RepairTwice(item: Item, directory: bool)
    ensures RepairItem(RepairItem(item, directory), directory) == RepairItem(item, directory)
  {}

  lemma OnlyRepairedReflexive(tree: Tree, objects: seq<Pinned>)
    ensures OnlyRepaired(tree, tree, objects)
  {}

  lemma OnlyRepairedStep(genesis: Tree, before: Tree, after: Tree, objects: seq<Pinned>, k: nat)
    requires Pins(objects, before) && k < |objects|
    requires OnlyRepaired(genesis, before, objects)
    requires after == before ||
             after == before[objects[k].path := RepairItem(before[objects[k].path], objects[k].directory)]
    ensures OnlyRepaired(genesis, after, objects)
  {
    hide RepairItem;
    var path := objects[k].path;
    if before[path] != genesis[path] {
      RepairTwice(genesis[path], objects[k].directory);
    }
  }

  lemma PinFacts(objects: seq<Pinned>, tree: Tree, k: nat)
    requires Pins(objects, tree) && k < |objects|
    ensures objects[k].path in tree
    ensures objects[k].parent.Some? ==> objects[k].parent.value < k
  {
    assert PinOk(objects, k);
  }

  lemma ParentCanonicalIsProper(objects: seq<Pinned>, tree: Tree, k: nat)
    requires Pins(objects, tree) && k < |objects|
    requires objects[k].parent.Some? ==> ClassAt(tree, objects[objects[k].parent.value]) == Canonical
    ensures Proper(RepairEvent(objects[k].path, true, tree))
  {
    hide Inspect;
    assert PinOk(objects, k);
    if objects[k].parent.Some? {
      assert PinOk(objects, objects[k].parent.value);
    }
  }

  // ------------------------------------------------------------ the opened plan

  function Find(objects: seq<Pinned>, path: Path): (r: Option<nat>)
    ensures r.Some? ==> r.value < |objects| && objects[r.value].path == path
    ensures r.None? ==> forall j :: 0 <= j < |objects| ==> objects[j].path != path
  {
    if objects == [] then None
    else if objects[|objects| - 1].path == path then Some(|objects| - 1)
    else Find(objects[..|objects| - 1], path)
  }

  function Pin(objects: seq<Pinned>, t: Target): Pinned {
    Pinned(t.path, t.directory, t.required, if t.path.Root? then None else Find(objects, t.path.dir))
  }

  /** What the first k targets of the plan pin on a tree. */
  function Opened(tree: Tree, k: nat): seq<Pinned>
    requires k <= |PLAN|
  {
    if k == 0 then [] else
    var before := Opened(tree, k - 1);
    if PLAN[k - 1].path in tree then before + [Pin(before, PLAN[k - 1])] else before
  }

  lemma PlanFacts()
    ensures forall i :: 0 <= i < |PLAN| ==> PLAN[i].required == (PLAN[i].path == Root)
    ensures forall i, j :: 0 <= i < j < |PLAN| ==> PLAN[i].path != PLAN[j].path
  {
    assert ".env"[0] != "logs"[0] && ".env"[0] != "data"[0] && "logs"[0] != "data"[0];
  }

  ghost predicate FromPlan(o: Pinned, t: Target) {
    o.path == t.path && o.directory == t.directory && o.root == t.required
  }

  /** The pinned objects are exactly the existing ones of the first k targets. */
  ghost predicate Covers(objects: seq<Pinned>, tree: Tree, k: nat)
    requires k <= |PLAN|
  {
    && (forall j :: 0 <= j < |objects| ==> Planned(objects[j], k))
    && (forall i :: 0 <= i < k && PLAN[i].path in tree ==> PinnedFor(objects, PLAN[i]))
  }

  ghost predicate Planned(o: Pinned, k: nat)
    requires k <= |PLAN|
  {
    exists i :: 0 <= i < k && FromPlan(o, PLAN[i])
  }

  ghost predicate PinnedFor(objects: seq<Pinned>, t: Target) {
    exists j :: 0 <= j < |objects| && FromPlan(objects[j], t)
  }

  lemma {:induction false} OpenedPins(tree: Tree, k: nat)
    requires Closed(tree) && k <= |PLAN|
    ensures Pins(Opened(tree, k), tree) && Covers(Opened(tree, k), tree, k)
  {
    hide Pins, Covers, PLAN;
    if k == 0 {
      NothingOpened(tree);
    } else {
      OpenedPins(tree, k - 1);
      var before, t := Opened(tree, k - 1), PLAN[k - 1];
      if t.path in tree {
        PlanPlaced(before, tree, k);
        PinKeepsPins(before, tree, t);
        PinKeepsCovers(before, tree, k);
      } else {
        SkipKeepsCovers(before, tree, k);
      }
    }
  }

  lemma NothingOpened(tree: Tree)
    ensures Pins([], tree) && Covers([], tree, 0)
  {}

  lemma SkipKeepsCovers(objects: seq<Pinned>, tree: Tree, k: nat)
    requires 0 < k <= |PLAN| && Covers(objects, tree, k - 1)
    requires PLAN[k - 1].path !in tree
    ensures Covers(objects, tree, k)
  {
    hide FromPlan, PLAN;
    forall j | 0 <= j < |objects| ensures Planned(objects[j], k) {
      assert Planned(objects[j], k - 1);
    }
  }

  lemma PinKeepsCovers(objects: seq<Pinned>, tree: Tree, k: nat)
    requires 0 < k <= |PLAN| && Covers(objects, tree, k - 1)
    ensures Covers(objects + [Pin(objects, PLAN[k - 1])], tree, k)
  {
    var t := PLAN[k - 1];
    var after := objects + [Pin(objects, t)];
    assert FromPlan(after[|objects|], t);
    hide FromPlan, PLAN;
    forall j | 0 <= j < |after| ensures Planned(after[j], k) {
      if j < |objects| {
        assert Planned(objects[j], k - 1);
      }
    }
    forall i | 0 <= i < k && PLAN[i].path in tree ensures PinnedFor(after, PLAN[i]) {
      if i < k - 1 {
        assert PinnedFor(objects, PLAN[i]);
        var j :| 0 <= j < |objects| && FromPlan(objects[j], PLAN[i]);
        assert FromPlan(after[j], PLAN[i]);
      }
    }
  }

  /** The next target is new, and its directory is pinned already. */
  ghost predicate Placed(objects: seq<Pinned>, t: Target) {
    && t.required == (t.path == Root)
    && (forall j :: 0 <= j < |objects| ==> objects[j].path != t.path)
    && (t.path != Root ==> exists j :: 0 <= j < |objects| && objects[j].path == t.path.dir && objects[j].directory)
  }

  lemma PinIsOk(objects: seq<Pinned>, t: Target)
    requires forall i, j :: 0 <= i < j < |objects| ==> objects[i].path != objects[j].path
    requires Placed(objects, t)
    ensures PinOk(objects + [Pin(objects, t)], |objects|)
    ensures Pin(objects, t).path == t.path
    ensures forall j :: 0 <= j < |objects| ==> objects[j].path != t.path
  {
    if t.path != Root {
      var j :| 0 <= j < |objects| && objects[j].path == t.path.dir && objects[j].directory;
      var r := Find(objects, t.path.dir);
      hide Find;
      assert r == Some(j);
    }
  }

  lemma PinKeepsPins(objects: seq<Pinned>, tree: Tree, t: Target)
    requires Pins(objects, tree) && Placed(objects, t) && t.path in tree
    ensures Pins(objects + [Pin(objects, t)], tree)
  {
    var after := objects + [Pin(objects, t)];
    PinIsOk(objects, t);
    hide Find, Pin, Placed;
    forall j | 0 <= j < |objects| ensures PinOk(after, j) && after[j].path in tree {
      assert PinOk(objects, j);
    }
  }

  lemma TargetFacts(k: nat)
    requires k < |PLAN|
    ensures PLAN[k].required == (PLAN[k].path == Root)
    ensures forall i :: 0 <= i < k ==> PLAN[i].path != PLAN[k].path
    ensures PLAN[k].path != Root ==>
              exists i :: 0 <= i < k && PLAN[i].path == PLAN[k].path.dir && PLAN[i].directory
  {
    PlanFacts();
    if k > 0 {
      PlanIsTopological(k);
    }
  }

  lemma PlanPlaced(objects: seq<Pinned>, tree: Tree, k: nat)
    requires 0 < k <= |PLAN| && PLAN[k - 1].path in tree
    requires Closed(tree) && Covers(objects, tree, k - 1)
    ensures Placed(objects, PLAN[k - 1])
  {
    hide PLAN;
    TargetFacts(k - 1);
    var t := PLAN[k - 1];
    if t.path != Root {
      var i :| 0 <= i < k - 1 && PLAN[i].path == t.path.dir && PLAN[i].directory;
      assert PinnedFor(objects, PLAN[i]);
      var j :| 0 <= j < |objects| && FromPlan(objects[j], PLAN[i]);
    }
    forall j | 0 <= j < |objects| ensures objects[j].path != t.path {
      assert Planned(objects[j], k - 1);
    }
  }

  // ----------------------------------------------------------- start to finish

  ghost predicate AnyUnsafe(tree: Tree) {
    exists i :: 0 <= i < |PLAN| && TargetClass(tree, PLAN[i]) == Unsafe
  }

  ghost predicate AllCanonical(tree: Tree) {
    forall i :: 0 <= i < |PLAN| ==> TargetClass(tree, PLAN[i]) == Canonical
  }

  lemma SameClass(tree: Tree, o: Pinned, t: Target)
    requires FromPlan(o, t)
    ensures t.path in tree ==> TargetClass(tree, t) == ClassAt(tree, o)
    ensures t.path !in tree ==> TargetClass(tree, t) == Canonical
  {}

  lemma AbsentIsCanonical(tree: Tree, t: Target)
    requires t.path !in tree
    ensures TargetClass(tree, t) == Canonical
  {}

  /** The pinned objects speak for the plan: class for class. */
  lemma PinnedUnsafe(objects: seq<Pinned>, tree: Tree)
    requires Covers(objects, tree, |PLAN|)
    requires forall j :: 0 <= j < |objects| ==> objects[j].path in tree
    ensures AnyUnsafe(tree) <==> exists j :: 0 <= j < |objects| && ClassAt(tree, objects[j]) == Unsafe
  {
    hide PLAN, TargetClass, ClassAt, FromPlan;
    if AnyUnsafe(tree) {
      var i :| 0 <= i < |PLAN| && TargetClass(tree, PLAN[i]) == Unsafe;
      if PLAN[i].path !in tree {
        AbsentIsCanonical(tree, PLAN[i]);
      } else {
        assert PinnedFor(objects, PLAN[i]);
        var j :| 0 <= j < |objects| && FromPlan(objects[j], PLAN[i]);
        SameClass(tree, objects[j], PLAN[i]);
      }
    }
    if j :| 0 <= j < |objects| && ClassAt(tree, objects[j]) == Unsafe {
      assert Planned(objects[j], |PLAN|);
      var i :| 0 <= i < |PLAN| && FromPlan(objects[j], PLAN[i]);
      SamePath(objects[j], PLAN[i]);
      SameClass(tree, objects[j], PLAN[i]);
    }
  }

  lemma PinnedCanonical(objects: seq<Pinned>, tree: Tree)
    requires Covers(objects, tree, |PLAN|)
    requires forall j :: 0 <= j < |objects| ==> objects[j].path in tree
    ensures AllCanonical(tree) <==> forall j :: 0 <= j < |objects| ==> ClassAt(tree, objects[j]) == Canonical
  {
    hide PLAN, TargetClass, ClassAt, FromPlan;
    if AllCanonical(tree) {
      forall j | 0 <= j < |objects| ensures ClassAt(tree, objects[j]) == Canonical {
        assert Planned(objects[j], |PLAN|);
        var i :| 0 <= i < |PLAN| && FromPlan(objects[j], PLAN[i]);
        SamePath(objects[j], PLAN[i]);
        SameClass(tree, objects[j], PLAN[i]);
      }
    }
    if forall j :: 0 <= j < |objects| ==> ClassAt(tree, objects[j]) == Canonical {
      forall i | 0 <= i < |PLAN| ensures TargetClass(tree, PLAN[i]) == Canonical {
        if PLAN[i].path !in tree {
          AbsentIsCanonical(tree, PLAN[i]);
        } else {
          assert PinnedFor(objects, PLAN[i]);
          var j :| 0 <= j < |objects| && FromPlan(objects[j], PLAN[i]);
          SameClass(tree, objects[j], PLAN[i]);
        }
      }
    }
  }

  lemma SamePath(o: Pinned, t: Target)
    requires FromPlan(o, t)
    ensures o.path == t.path
  {}

  /** Creating the lock file adds one canonical object below the root. */
  lemma LockPinned(objects: seq<Pinned>, tree: Tree)
    requires Pins(objects, tree) && Covers(objects, tree, |PLAN|)
    requires LOCK !in tree && Root in tree
    ensures
      var after := tree[LOCK := NEW_LOCK];
      var all := objects + [Pin(objects, Target(LOCK, false, false))];
      && Pins(all, after)
      && ClassAt(after, all[|objects|]) == Canonical
      && (forall j :: 0 <= j < |objects| ==> ClassAt(after, objects[j]) == ClassAt(tree, objects[j]))
  {
    var t := Target(LOCK, false, false);
    var after := tree[LOCK := NEW_LOCK];
    NewLockCanonical();
    assert PinnedFor(objects, PLAN[0]);
    hide PLAN, Inspect, Covers;
    assert Placed(objects, t);
    assert Pins(objects, after);
    PinKeepsPins(objects, after, t);
  }

  lemma LockCovered(objects: seq<Pinned>, tree: Tree)
    requires Covers(objects, tree, |PLAN|)
    requires LOCK !in tree
    ensures Covers(objects + [Pin(objects, Target(LOCK, false, false))], tree[LOCK := NEW_LOCK], |PLAN|)
  {
    var t := Target(LOCK, false, false);
    var after := tree[LOCK := NEW_LOCK];
    var all := objects + [Pin(objects, t)];
    assert PLAN[4] == t && FromPlan(all[|objects|], t);
    hide PLAN, FromPlan, Pin;
    forall j | 0 <= j < |all| ensures Planned(all[j], |PLAN|) {
      if j < |objects| {
        assert Planned(objects[j], |PLAN|);
      }
    }
    forall i | 0 <= i < |PLAN| && PLAN[i].path in after ensures PinnedFor(all, PLAN[i]) {
      if PLAN[i].path in tree {
        assert PinnedFor(objects, PLAN[i]);
        var j :| 0 <= j < |objects| && FromPlan(objects[j], PLAN[i]);
        assert FromPlan(all[j], PLAN[i]);
      } else {
        LockTarget(i);
      }
    }
  }

  /** Every old object is still there, as it was or, if planned, repaired; the
      lock file is the only possible new one. */
  ghost predicate OnlyPlanRepaired(before: Tree, after: Tree) {
    && before.Keys <= after.Keys <= before.Keys + {LOCK}
    && forall path :: path in before ==>
         after[path] == before[path] ||
         exists i :: 0 <= i < |PLAN| && PLAN[i].path == path
                     && after[path] == RepairItem(before[path], PLAN[i].directory)
  }

  lemma PlanRepaired(genesis: Tree, locked: Tree, after: Tree, objects: seq<Pinned>)
    requires locked == genesis || (LOCK !in genesis && locked == genesis[LOCK := NEW_LOCK])
    requires Covers(objects, locked, |PLAN|)
    requires OnlyRepaired(locked, after, objects)
    ensures OnlyPlanRepaired(genesis, after)
  {
    hide PLAN, RepairItem;
    forall path | path in genesis && after[path] != genesis[path]
      ensures exists i :: 0 <= i < |PLAN| && PLAN[i].path == path
                          && after[path] == RepairItem(genesis[path], PLAN[i].directory)
    {
      var k :| 0 <= k < |objects| && objects[k].path == path
               && after[path] == RepairItem(locked[path], objects[k].directory);
      assert Planned(objects[k], |PLAN|);
      var i :| 0 <= i < |PLAN| && FromPlan(objects[k], PLAN[i]);
    }
  }

  lemma NothingRepaired(tree: Tree)
    ensures OnlyPlanRepaired(tree, tree)
    ensures LOCK !in tree ==> OnlyPlanRepaired(tree, tree[LOCK := NEW_LOCK])
  {}

  lemma SameCover(objects: seq<Pinned>, before: Tree, after: Tree)
    requires Covers(objects, before, |PLAN|) && after.Keys == before.Keys
    ensures Covers(objects, after, |PLAN|)
  {
    hide PLAN;
  }

  lemma LockTarget(i: nat)
    requires i < |PLAN| && PLAN[i].path == LOCK
    ensures PLAN[i] == Target(LOCK, false, false)
  {
    PlanFacts();
    assert PLAN[4].path == LOCK;
  }

  class Gate {
    /** The directories above the root, from the drive down. */
    const ancestors: seq<Ancestor>
    var tree: Tree
    var lockHeld: bool
    ghost var repairs: seq<RepairEvent>

    constructor (ancestors: seq<Ancestor>, tree: Tree)
      ensures this.ancestors == ancestors && this.tree == tree && !lockHeld && repairs == []
    {
      this.ancestors, this.tree, lockHeld, repairs := ancestors, tree, false, [];
    }

    /** Pins every directory above the root, or refuses. */
    method PinAncestors() returns (ok: bool)
      ensures ok <==> AllSound(ancestors)
    {
      for i := 0 to |ancestors|
        invariant forall j :: 0 <= j < i ==> ancestors[j].Sound()
      {
        var a := ancestors[i];
        if !a.opens || !a.readable || a.link || !a.directory || !a.resolvesToItself {
          return false;
        }
      }
      return true;
    }

    /** Replaces the access list of one object; the call may fail, with or
        without its effect. */
    method Repair(o: Pinned, call: Call) returns (ok: bool)
      requires o.path in tree
      modifies `tree, `repairs
      ensures tree == if call.effect then old(tree)[o.path := RepairItem(old(tree)[o.path], o.directory)] else old(tree)
      ensures ok == call.Succeeds()
      ensures repairs == old(repairs) + [RepairEvent(o.path, lockHeld, old(tree))]
    {
      ok := call.Succeeds();
      repairs := repairs + [RepairEvent(o.path, lockHeld, tree)];
      if call.effect {
        tree := tree[o.path := RepairItem(tree[o.path], o.directory)];
      }
    }

    /** Inspect, repair if that is possible, and inspect again. */
    method EnsureObject(o: Pinned, script: Script) returns (failure: Option<Failure>)
      requires o.path in tree
      modifies `tree, `repairs
      ensures failure.None? ==> ClassAt(tree, o) == Canonical
      ensures tree == old(tree) || tree == old(tree)[o.path := RepairItem(old(tree)[o.path], o.directory)]
      ensures if ClassAt(old(tree), o) == Repairable
              then repairs == old(repairs) || repairs == old(repairs) + [RepairEvent(o.path, lockHeld, old(tree))]
              else tree == old(tree) && repairs == old(repairs)
      ensures FaultFree(script) ==> (failure.Some? <==> ClassAt(old(tree), o) == Unsafe)
      ensures failure.Some? ==> !failure.value.PostRepairFailed? && !failure.value.ParentFailed?
    {
      hide Inspect, RepairItem;
      if !script(Proceed(o.path)).Succeeds() {
        return Some(CancelledRun);
      }
      var class_ := Inspect(tree[o.path], o.directory, o.root).class_;
      if class_ == Unsafe {
        return Some(UnsafeObject(o.path));
      }
      if class_ == Canonical {
        return None;
      }
      RepairFixes(tree[o.path], o.directory, o.root);
      var repaired := Repair(o, script(RepairObject(o.path)));
      if !repaired {
        return Some(RepairFailed(o.path));
      }
      failure := if Inspect(tree[o.path], o.directory, o.root).class_ == Canonical then None
                 else Some(PostRepairFailed(o.path));
    }

    /** The first pass: open and inspect every planned object, writing nothing. */
    method OpenPlan(script: Script) returns (objects: seq<Pinned>, failure: Option<Failure>)
      requires Closed(tree)
      ensures failure.None? ==> objects == Opened(tree, |PLAN|) && Root in tree && !AnyUnsafe(tree)
      ensures FaultFree(script) ==> (failure.Some? <==> Root !in tree || AnyUnsafe(tree))
      ensures failure.Some? ==> !failure.value.PostRepairFailed? && !failure.value.ParentFailed?
    {
      assert PLAN[0].path == Root && PLAN[0].required;
      hide PLAN, Inspect;
      PlanFacts();
      objects := [];
      for k := 0 to |PLAN|
        invariant objects == Opened(tree, k)
        invariant k > 0 ==> Root in tree
        invariant forall i :: 0 <= i < k ==> TargetClass(tree, PLAN[i]) != Unsafe
      {
        var t := PLAN[k];
        var call := script(OpenObject(t.path));
        if !call.effect || (t.path in tree && !call.reported) {
          return [], Some(if !call.effect then CancelledRun else PathRefused(t.path));
        }
        if t.path !in tree {
          if t.required {
            return [], Some(PathRefused(t.path));
          }
        } else {
          var o := Pin(objects, t);
          if Inspect(tree[t.path], o.directory, o.root).class_ == Unsafe {
            assert TargetClass(tree, PLAN[k]) == Unsafe;
            return [], Some(UnsafeObject(t.path));
          }
          objects := objects + [o];
        }
      }
      failure := None;
    }

    method RepairAll(objects: seq<Pinned>, script: Script) returns (failure: Option<Failure>)
      requires Pins(objects, tree) && lockHeld
      requires forall k :: 0 <= k < |objects| ==> ClassAt(tree, objects[k]) != Unsafe
      modifies `tree, `repairs
      ensures failure.None? ==> forall k :: 0 <= k < |objects| ==> ClassAt(tree, objects[k]) == Canonical
      ensures FaultFree(script) ==> failure.None?
      ensures failure.Some? ==> !failure.value.PostRepairFailed? && !failure.value.ParentFailed?
      ensures (forall k :: 0 <= k < |objects| ==> ClassAt(old(tree), objects[k]) == Canonical) ==>
                tree == old(tree) && repairs == old(repairs)
      ensures |old(repairs)| <= |repairs| && repairs[..|old(repairs)|] == old(repairs)
      ensures ProperSince(repairs, |old(repairs)|)
      ensures OnlyRepaired(old(tree), tree, objects)
    {
      OnlyRepairedReflexive(tree, objects);
      hide Inspect, RepairItem, Pins, OnlyRepaired, Proper, ClassAt;
      for k := 0 to |objects|
        invariant Pins(objects, tree) && lockHeld
        invariant forall j :: 0 <= j < k ==> ClassAt(tree, objects[j]) == Canonical
        invariant forall j :: k <= j < |objects| ==>
                    ClassAt(tree, objects[j]) == ClassAt(old(tree), objects[j]) != Unsafe
        invariant (forall j :: 0 <= j < |objects| ==> ClassAt(old(tree), objects[j]) == Canonical) ==>
                    tree == old(tree) && repairs == old(repairs)
        invariant |old(repairs)| <= |repairs| && repairs[..|old(repairs)|] == old(repairs)
        invariant ProperSince(repairs, |old(repairs)|)
        invariant OnlyRepaired(old(tree), tree, objects)
      {
        var o := objects[k];
        ghost var before := tree;
        PinFacts(objects, tree, k);
        if o.parent.Some? {
          var parent := objects[o.parent.value];
          var parentClass := ClassAt(tree, parent);
          if parentClass != Canonical {
            return Some(ParentFailed(parent.path));
          }
        }
        ParentCanonicalIsProper(objects, tree, k);
        failure := EnsureObject(o, script);
        OthersKept(before, tree, objects, k);
        OnlyRepairedStep(old(tree), before, tree, objects, k);
        if failure.Some? {
          return;
        }
      }
      failure := None;
    }

    /** The engine: nothing is repaired if anything is unsafe; otherwise every
        object is made canonical, parents first. */
    method EnsureObjects(objects: seq<Pinned>, script: Script) returns (failure: Option<Failure>)
      requires Pins(objects, tree) && lockHeld
      modifies `tree, `repairs
      ensures (exists k :: 0 <= k < |objects| && ClassAt(old(tree), objects[k]) == Unsafe) ==>
                failure.Some? && tree == old(tree) && repairs == old(repairs)
      ensures failure.None? ==> forall k :: 0 <= k < |objects| ==> ClassAt(tree, objects[k]) == Canonical
      ensures FaultFree(script) && failure.Some? ==>
                exists k :: 0 <= k < |objects| && ClassAt(old(tree), objects[k]) == Unsafe
      ensures failure.Some? ==> !failure.value.PostRepairFailed? && !failure.value.ParentFailed?
      ensures (forall k :: 0 <= k < |objects| ==> ClassAt(old(tree), objects[k]) == Canonical) ==>
                tree == old(tree) && repairs == old(repairs)
      ensures |old(repairs)| <= |repairs| && repairs[..|old(repairs)|] == old(repairs)
      ensures ProperSince(repairs, |old(repairs)|)
      ensures OnlyRepaired(old(tree), tree, objects)
    {
      // The preflight, repeated under the lock.
      for k := 0 to |objects|
        invariant forall j :: 0 <= j < k ==> ClassAt(tree, objects[j]) != Unsafe
      {
        if Inspect(tree[objects[k].path], objects[k].directory, objects[k].root).class_ == Unsafe {
          return Some(UnsafeObject(objects[k].path));
        }
      }
      failure := RepairAll(objects, script);
      if failure.Some? {
        return;
      }
      // The final inspection of everything.
      for k := 0 to |objects|
      {
        var o := objects[k];
        if Inspect(tree[o.path], o.directory, o.root).class_ != Canonical {
          return Some(PostRepairFailed(o.path));
        }
      }
    }

    /** The gate. It refuses an unsafe installation without touching it; what it
        accepts is canonical throughout, with the runtime lock held. */
    method EnsureStartup(script: Script) returns (failure: Option<Failure>)
      requires Closed(tree) && !lockHeld
      modifies this
      // Nothing is written, and no lock file created, if anything is unsafe.
      ensures AnyUnsafe(old(tree)) ==> failure.Some? && tree == old(tree) && repairs == old(repairs)
      // Nothing is written below a root whose ancestors are not all plain directories.
      ensures !AllSound(ancestors) ==>
                failure == Some(AncestorRefused) && tree == old(tree) && repairs == old(repairs)
      // Success means the lock and a canonical plan.
      ensures failure.None? ==> AllSound(ancestors) && lockHeld && Root in tree && LOCK in tree && AllCanonical(tree)
      ensures failure.Some? ==> !lockHeld
      // Without faults it fails exactly on an unsafe or missing installation: no parent
      // check and no final check ever fails by itself.
      ensures FaultFree(script) ==>
                (failure.Some? <==> !AllSound(ancestors) || Root !in old(tree) || AnyUnsafe(old(tree)))
      ensures failure.Some? ==> !failure.value.PostRepairFailed? && !failure.value.ParentFailed?
      // Every repair happened under the lock, inside a canonical directory.
      ensures |old(repairs)| <= |repairs| && ProperSince(repairs, |old(repairs)|)
      // A canonical installation is not repaired.
      ensures AllCanonical(old(tree)) ==>
                && repairs == old(repairs)
                && (tree == old(tree) || (LOCK !in old(tree) && tree == old(tree)[LOCK := NEW_LOCK]))
      // Only access lists of planned objects change; owners and structure stay.
      ensures OnlyPlanRepaired(old(tree), tree)
      ensures Closed(tree)
    {
      hide Inspect, Proper, OnlyRepaired, OnlyPlanRepaired, RepairItem, ClassAt, TargetClass;
      hide AnyUnsafe, AllCanonical, Covers;
      var objects;
      NothingRepaired(tree);
      var pinned := PinAncestors();
      if !pinned {
        return Some(AncestorRefused);
      }
      objects, failure := OpenPlan(script);
      if failure.Some? {
        return;
      }
      OpenedPins(tree, |PLAN|);
      PinnedUnsafe(objects, tree);
      PinnedCanonical(objects, tree);
      hide PLAN;
      if LOCK !in tree {
        if !script(CreateLock).Succeeds() {
          return Some(PathRefused(Root));
        }
        LockPinned(objects, tree);
        LockCovered(objects, tree);
        objects := objects + [Pin(objects, Target(LOCK, false, false))];
        tree := tree[LOCK := NEW_LOCK];
        PinnedUnsafe(objects, tree);
        PinnedCanonical(objects, tree);
      }
      if !script(TakeLock).Succeeds() {
        return Some(LockBusy);
      }
      lockHeld := true;
      ghost var locked := tree;
      failure := EnsureObjects(objects, script);
      PlanRepaired(old(tree), locked, tree, objects);
      if failure.Some? {
        lockHeld := false;
        return;
      }
      SameCover(objects, locked, tree);
      PinnedUnsafe(objects, tree);
      PinnedCanonical(objects, tree);
    }

    method Release()
      modifies `lockHeld
      ensures !lockHeld
    {
      lockHeld := false;
    }

    /** A second start after a successful one changes nothing. */
    method StartTwice(script: Script, again: Script)
      returns (first: Option<Failure>, second: Option<Failure>, ghost middle: Tree, ghost count: nat)
      requires Closed(tree) && !lockHeld
      modifies this
      ensures first.None? ==> AllCanonical(middle) && tree == middle && |repairs| == count
      ensures first.None? && FaultFree(again) ==> second.None?
    {
      first := EnsureStartup(script);
      middle, count := tree, |repairs|;
      second := None;
      if first.None? {
        Release();
        second := EnsureStartup(again);
      }
    }
  }
}
