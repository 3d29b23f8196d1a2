/** The rotating log file. File 0 is the current log, file i the backup `path.i`.
    Every file operation may fail, with or without its effect. */
module RotatingLog {
  import opened Common

  type Files = map<nat, Bytes>

  datatype Handle = Absent | Open | Broken

  datatype OpResult = Done | NotFound | Failed

  /** How one file operation turns out: whether it takes effect, whether it is reported
      to have done so, and how far a failing write gets. */
  datatype Call = Call(effect: bool, reported: bool, partial: nat) {
    predicate Succeeds() { effect && reported }
  }

  /** The operations of one write. */
  datatype Operation =
    | Reopen | Permit | CloseFile | RemoveFile(i: nat) | RenameFile(i: nat) | OpenNew | AppendBytes

  type Script = Operation -> Call

  ghost predicate FaultFree(script: Script) {
    forall operation :: script(operation).Succeeds()
  }

  function Own(files: Files, i: nat): Bytes {
    if i in files then files[i] else []
  }

  /** The log read from backup n down to the current file. */
  function Chain(files: Files, n: nat): Bytes {
    Own(files, n) + if n == 0 then [] else Chain(files, n - 1)
  }

  function Move(files: Files, source: nat, dest: nat): Files
    requires source in files
  {
    (files - {source})[dest := files[source]]
  }

  /** A complete rotation: every backup one place older, the oldest gone. */
  function Shifted(files: Files, n: nat): Files {
    var moved := set i | i in files && i < n :: i + 1;
    var foreign := set i | i in files && i > n;
    map i | i in moved + foreign + {0} ::
      if i > n then Own(files, i) else if i == 0 then (if n == 0 then Own(files, 0) else []) else Own(files, i - 1)
  }

  /** The files a message is appended to: rotated if it would not fit. */
  function Room(files: Files, limit: nat, n: nat, p: Bytes): Files {
    var present := files[0 := Own(files, 0)];
    if |Own(files, 0)| + |p| > limit then Shifted(present, n) else present
  }

  /** What a write that succeeds leaves behind. */
  function AfterWrite(files: Files, limit: nat, n: nat, p: Bytes): Files {
    var room := Room(files, limit, n, p);
    room[0 := Own(room, 0) + Kept(p, limit)]
  }

  function Kept(p: Bytes, limit: nat): Bytes {
    if |p| > limit then p[..limit] else p
  }

  ghost predicate WithinLimit(files: Files, limit: nat, n: nat) {
    forall i :: i in files && i <= n ==> |files[i]| <= limit
  }

  // ------------------------------------------------------------------ lemmas

  lemma {:induction false} ChainFrame(a: Files, b: Files, n: nat)
    requires forall i :: 0 <= i <= n ==> Own(a, i) == Own(b, i)
    ensures Chain(a, n) == Chain(b, n)
  {
    if n > 0 {
      ChainFrame(a, b, n - 1);
    }
  }

  /** Moving a file into the gap above it does not change the log. */
  lemma {:induction false} MoveKeepsChain(files: Files, i: nat, n: nat)
    requires 1 <= i <= n && i !in files && i - 1 in files
    ensures Chain(Move(files, i - 1, i), n) == Chain(files, n)
  {
    hide Move, Own, Chain;
    var moved := Move(files, i - 1, i);
    OwnMoved(files, i, n);
    ChainStep(files, n);
    ChainStep(moved, n);
    if i < n {
      MoveKeepsChain(files, i, n - 1);
    } else {
      MoveAtTop(files, i);
    }
  }

  lemma MoveAtTop(files: Files, i: nat)
    requires 1 <= i && i !in files && i - 1 in files
    ensures Chain(Move(files, i - 1, i), i) == Chain(files, i)
  {
    hide Move, Own, Chain;
    var moved := Move(files, i - 1, i);
    var below := if i >= 2 then Chain(files, i - 2) else [];
    OwnMoved(files, i, i);
    OwnMoved(files, i, i - 1);
    ChainStep(files, i);
    ChainStep(files, i - 1);
    ChainStep(moved, i);
    ChainStep(moved, i - 1);
    if i >= 2 {
      forall k | 0 <= k <= i - 2 ensures Own(moved, k) == Own(files, k) {
        OwnMoved(files, i, k);
      }
      ChainFrame(moved, files, i - 2);
    }
    assert Chain(moved, i - 1) == [] + below == below;
    assert Chain(files, i) == [] + Chain(files, i - 1) == Chain(files, i - 1);
  }

  lemma ChainStep(files: Files, n: nat)
    ensures Chain(files, n) == Own(files, n) + if n == 0 then [] else Chain(files, n - 1)
  {}

  lemma OwnMoved(files: Files, i: nat, k: nat)
    requires i >= 1 && i !in files && i - 1 in files
    ensures Own(files, i) == []
    ensures Own(Move(files, i - 1, i), k) ==
      if k == i then Own(files, i - 1) else if k == i - 1 then [] else Own(files, k)
  {}

  lemma {:induction false} DropOldest(files: Files, n: nat)
    ensures Chain(files - {n}, n) == Chain(files, n)[|Own(files, n)|..]
    ensures IsSuffix(Chain(files - {n}, n), Chain(files, n))
  {
    var newer := if n == 0 then [] else Chain(files, n - 1);
    if n > 0 {
      ChainFrame(files - {n}, files, n - 1);
    }
    assert Chain(files, n) == Own(files, n) + newer;
    assert Chain(files - {n}, n) == [] + newer;
  }

  lemma {:induction false} AppendExtendsChain(files: Files, p: Bytes, n: nat)
    ensures Chain(files[0 := Own(files, 0) + p], n) == Chain(files, n) + p
  {
    var longer := files[0 := Own(files, 0) + p];
    if n > 0 {
      AppendExtendsChain(files, p, n - 1);
      Associative(Own(files, n), Chain(files, n - 1), p);
      assert Own(longer, n) == Own(files, n);
    }
  }

  lemma Associative(a: Bytes, b: Bytes, c: Bytes)
    ensures a + (b + c) == (a + b) + c
  {}

  lemma SuffixTrans(a: Bytes, b: Bytes, c: Bytes)
    requires IsSuffix(a, b) && IsSuffix(b, c)
    ensures IsSuffix(a, c)
  {}

  lemma SuffixAppend(a: Bytes, b: Bytes, p: Bytes)
    requires IsSuffix(a, b)
    ensures IsSuffix(a + p, b + p)
  {}

  lemma ShiftedAt(files: Files, n: nat, j: nat)
    ensures j in Shifted(files, n) <==>
              j == 0 || (1 <= j <= n && j - 1 in files) || (j > n && j in files)
    ensures j in Shifted(files, n) ==>
              Shifted(files, n)[j] == if j > n then Own(files, j)
                                      else if j > 0 then Own(files, j - 1)
                                      else if n == 0 then Own(files, 0) else []
  {
    if 1 <= j <= n && j - 1 in files {
      assert j == (j - 1) + 1;
    }
  }

  /** The slots above i hold their lower neighbour, slot i is free once the
      first move is done, and the rest is as before. */
  ghost predicate PartlyShifted(before: Files, now: Files, i: nat, n: nat) {
    i <= n && forall j: nat :: Slot(now, j) == SlotMidway(before, i, n, j)
  }

  function Slot(files: Files, j: nat): Option<Bytes> {
    if j in files then Some(files[j]) else None
  }

  /** What is in slot j when the slots above i have been shifted. */
  function SlotMidway(before: Files, i: nat, n: nat, j: nat): Option<Bytes> {
    if i < j <= n then Slot(before, j - 1)
    else if j == i < n then None
    else Slot(before, j)
  }

  function Turned(files: Files, i: nat): Files
    requires i >= 1
  {
    var cleared := files - {i};
    if i - 1 in cleared then Move(cleared, i - 1, i) else cleared
  }

  lemma TurnShifts(before: Files, now: Files, i: nat, n: nat)
    requires 1 <= i && PartlyShifted(before, now, i, n)
    ensures PartlyShifted(before, Turned(now, i), i - 1, n)
  {
    forall j: nat ensures Slot(Turned(now, i), j) == SlotMidway(before, i - 1, n, j) {
      SlotTurned(now, i, j);
      hide Turned;
      assert Slot(now, j) == SlotMidway(before, i, n, j);
      assert Slot(now, i - 1) == SlotMidway(before, i, n, i - 1);
    }
  }

  lemma NothingShifted(files: Files, n: nat)
    ensures PartlyShifted(files, files, n, n)
  {}

  /** The log went on from one set of files to another without harm: it still ends the
      stream, keeps within its limit, and left alone what is not its own. */
  ghost predicate Unharmed(before: Files, now: Files, stream: Bytes, limit: nat, n: nat) {
    && IsSuffix(Chain(now, n), stream)
    && (WithinLimit(before, limit, n) ==> WithinLimit(now, limit, n))
    && (forall j :: j > n ==> (j in now <==> j in before) && (j in now ==> now[j] == before[j]))
  }

  lemma NoHarm(files: Files, stream: Bytes, limit: nat, n: nat)
    requires IsSuffix(Chain(files, n), stream)
    ensures Unharmed(files, files, stream, limit, n)
  {}

  lemma ClearUnharmed(files: Files, stream: Bytes, limit: nat, n: nat, i: nat)
    requires IsSuffix(Chain(files, n), stream) && 1 <= i <= n && (i < n ==> i !in files)
    ensures Unharmed(files, files - {i}, stream, limit, n)
  {
    hide Chain, IsSuffix, Unharmed;
    NoHarm(files, stream, limit, n);
    if i == n {
      DropOldest(files, n);
      SuffixTrans(Chain(files - {n}, n), Chain(files, n), stream);
      DropHarmless(files, stream, limit, n);
    } else {
      RemoveAbsent(files, i);
    }
  }

  lemma RemoveAbsent(files: Files, i: nat)
    requires i !in files
    ensures files - {i} == files
  {}

  lemma DropHarmless(files: Files, stream: Bytes, limit: nat, n: nat)
    requires IsSuffix(Chain(files - {n}, n), stream)
    ensures Unharmed(files, files - {n}, stream, limit, n)
  {
    hide Chain, IsSuffix;
  }

  lemma MoveUnharmed(before: Files, files: Files, stream: Bytes, limit: nat, n: nat, i: nat)
    requires Unharmed(before, files, stream, limit, n)
    requires 1 <= i <= n && i !in files && i - 1 in files
    ensures Unharmed(before, Move(files, i - 1, i), stream, limit, n)
  {
    MoveKeepsChain(files, i, n);
    hide Chain, IsSuffix;
  }

  /** What a rotation cut short leaves alone, and the gap it works on. */
  lemma MidwayFacts(before: Files, now: Files, i: nat, n: nat)
    requires PartlyShifted(before, now, i, n)
    ensures i < n ==> i !in now
    ensures n == 0 ==> Slot(now, 0) == Slot(before, 0)
    ensures forall j :: j > n ==> (j in now <==> j in before) && (j in now ==> now[j] == before[j])
  {
    assert Slot(now, i) == SlotMidway(before, i, n, i);
    assert Slot(now, 0) == SlotMidway(before, i, n, 0);
    forall j | j > n ensures (j in now <==> j in before) && (j in now ==> now[j] == before[j]) {
      assert Slot(now, j) == SlotMidway(before, i, n, j);
    }
  }

  lemma SlotTurned(files: Files, i: nat, j: nat)
    requires i >= 1
    ensures Slot(Turned(files, i), j) ==
      if j == i then Slot(files, i - 1) else if j == i - 1 then None else Slot(files, j)
  {}

  /** When every slot has been shifted and the current file is there again, empty unless
      nothing moved, the rotation is complete. */
  lemma IsShifted(before: Files, midway: Files, n: nat)
    requires PartlyShifted(before, midway, 0, n)
    ensures
      var after := if 0 in midway then midway else midway[0 := []];
      0 in before || n >= 1 ==> after == Shifted(before, n)
  {
    var after := if 0 in midway then midway else midway[0 := []];
    var whole := Shifted(before, n);
    if 0 in before || n >= 1 {
      forall j: nat ensures Slot(after, j) == Slot(whole, j) {
        ShiftedAt(before, n, j);
        assert Slot(midway, j) == SlotMidway(before, 0, n, j);
      }
      SameSlots(after, whole);
    }
  }

  lemma SameSlots(a: Files, b: Files)
    requires forall j: nat :: Slot(a, j) == Slot(b, j)
    ensures a == b
  {
    forall j: nat ensures (j in a <==> j in b) && (j in a ==> a[j] == b[j]) {
      assert Slot(a, j) == Slot(b, j);
    }
  }

  /** A complete rotation loses the oldest backup and nothing else. */
  lemma {:induction false} ShiftLosesOldest(files: Files, n: nat)
    requires n >= 1
    ensures Chain(Shifted(files, n), n) == Chain(files, n - 1)
    ensures IsSuffix(Chain(Shifted(files, n), n), Chain(files, n))
  {
    ShiftedChain(files, n, n);
  }

  lemma {:induction false} ShiftedChain(files: Files, n: nat, k: nat)
    requires 1 <= k <= n
    ensures Chain(Shifted(files, n), k) == Chain(files, k - 1)
  {
    var shifted := Shifted(files, n);
    assert Own(shifted, k) == Own(files, k - 1) by {
      assert k in shifted <==> k - 1 in files;
    }
    if k > 1 {
      ShiftedChain(files, n, k - 1);
    } else {
      assert Own(shifted, 0) == [];
    }
  }

  /** Files stay within the limit over every successful write exactly when at
      least one backup is configured (or nothing may be stored at all). */
  lemma LimitHoldsExactlyWithBackups(limit: nat, n: nat)
    ensures (forall files, p :: WithinLimit(files, limit, n) ==> WithinLimit(AfterWrite(files, limit, n, p), limit, n))
            <==> n >= 1 || limit == 0
  {
    if n >= 1 || limit == 0 {
      forall files, p | WithinLimit(files, limit, n)
        ensures WithinLimit(AfterWrite(files, limit, n, p), limit, n)
      {
        var after := AfterWrite(files, limit, n, p);
        forall i | i in after && i <= n ensures |after[i]| <= limit {
          if i > 0 && |Own(files, 0)| + |p| > limit {
            assert after[i] == Own(files[0 := Own(files, 0)], i - 1);
          }
        }
      }
    } else {
      var full := map[0 := seq(limit, _ => 0)];
      assert WithinLimit(full, limit, 0);
      var after := AfterWrite(full, limit, 0, [1]);
      assert |after[0]| == limit + 1;
      assert !WithinLimit(after, limit, 0);
    }
  }

  // ------------------------------------------------------------------ the log

  /** A write that gets as far as rotating: its handle is open or reopens, the message
      does not fit, and the rotation is permitted. */
  predicate Rotates(files: Files, handle: Handle, limit: nat, p: Bytes, script: Script) {
    && (handle == Open || (handle == Absent && Reopens(files, script)))
    && |Own(files, 0)| + |p| > limit
    && script(Permit).Succeeds()
  }

  predicate Reopens(files: Files, script: Script) {
    script(Reopen).reported && (0 in files || script(Reopen).effect)
  }

  /** A write that ruins the handle: closing it for a rotation fails. */
  predicate Breaks(files: Files, handle: Handle, limit: nat, p: Bytes, script: Script) {
    Rotates(files, handle, limit, p, script) && !script(CloseFile).Succeeds()
  }

  /** Turn i of a rotation goes through: the slot can be cleared and the file below it,
      if there is one, moves up. */
  predicate TurnSucceeds(files: Files, n: nat, script: Script, i: nat) {
    && script(RemoveFile(i)).reported && (i == n && i in files ==> script(RemoveFile(i)).effect)
    && script(RenameFile(i)).reported && (i >= 1 && i - 1 in files ==> script(RenameFile(i)).effect)
  }

  predicate RotationSucceeds(files: Files, n: nat, script: Script) {
    && script(CloseFile).Succeeds()
    && (forall i :: 1 <= i <= n ==> TurnSucceeds(files, n, script, i))
    && script(OpenNew).reported && (n >= 1 ==> script(OpenNew).effect)
  }

  /** A write that gets as far as appending. */
  predicate Appends(files: Files, handle: Handle, limit: nat, n: nat, p: Bytes, script: Script) {
    && handle != Broken
    && (handle == Absent ==> Reopens(files, script))
    && (|Own(files, 0)| + |p| > limit ==>
          script(Permit).Succeeds() && RotationSucceeds(files[0 := Own(files, 0)], n, script))
  }

  /** A write that stores its message: every operation it needs works. */
  predicate Stores(files: Files, handle: Handle, limit: nat, n: nat, p: Bytes, script: Script) {
    Appends(files, handle, limit, n, p, script) && script(AppendBytes).Succeeds()
  }

  /** What a write puts into the log: all that may be kept of its message, what a failing
      append gets done, or nothing. */
  function Piece(files: Files, handle: Handle, limit: nat, n: nat, p: Bytes, script: Script): Bytes {
    var kept := Kept(p, limit);
    if Appends(files, handle, limit, n, p, script) then
      if script(AppendBytes).Succeeds() || script(AppendBytes).partial > |kept| then kept
      else kept[..script(AppendBytes).partial]
    else []
  }

  /** A turn finds what it needs in the files the rotation started from. */
  lemma SameTurn(before: Files, now: Files, i: nat, n: nat, script: Script)
    requires 1 <= i <= n && PartlyShifted(before, now, i, n)
    ensures TurnSucceeds(now, n, script, i) <==> TurnSucceeds(before, n, script, i)
  {
    assert Slot(now, i) == SlotMidway(before, i, n, i);
    assert Slot(now, i - 1) == SlotMidway(before, i, n, i - 1);
  }

  lemma RuinedStoresNothing(files: Files, limit: nat, n: nat, p: Bytes, script: Script)
    ensures !Stores(files, Broken, limit, n, p, script)
  {}

  lemma FaultFreeStores(files: Files, handle: Handle, limit: nat, n: nat, p: Bytes, script: Script)
    requires FaultFree(script) && handle != Broken
    ensures Stores(files, handle, limit, n, p, script)
  {}

  class Log {
    const limit: nat
    const backups: nat
    var files: Files
    var handle: Handle
    var size: nat
    /** What was there at the start, then every byte ever appended. */
    ghost var stream: Bytes

    ghost predicate Valid()
      reads this
    {
      && IsSuffix(Chain(files, backups), stream)
      && (handle == Open ==> 0 in files && size == |files[0]|)
    }

    /** Files beyond the configured backups are none of the log's business. */
    ghost predicate Foreign(before: Files)
      reads this
    {
      forall i :: i > backups ==> (i in files <==> i in before) && (i in files ==> files[i] == before[i])
    }

    constructor (limit: nat, backups: nat, initial: Files)
      ensures Valid() && this.limit == limit && this.backups == backups
      ensures files == initial && handle == Absent && stream == Chain(initial, backups)
    {
      this.limit, this.backups := limit, backups;
      files, handle, size := initial, Absent, 0;
      stream := Chain(initial, backups);
    }

    /** Opens for appending, creating the file when it is missing. */
    method OpenCurrent(call: Call) returns (ok: bool)
      requires Valid() && handle == Absent
      modifies this
      ensures Valid() && stream == old(stream)
      ensures files == if call.effect && 0 !in old(files) then old(files)[0 := []] else old(files)
      ensures ok == (call.reported && 0 in files)
      ensures if ok then handle == Open else handle == Absent
    {
      if call.effect && 0 !in files {
        assert Own(files, 0) + [] == [];
        AppendExtendsChain(files, [], backups);
        files := files[0 := []];
      }
      ok := call.reported && 0 in files;
      if ok {
        handle, size := Open, |files[0]|;
      }
    }

    method Remove(i: nat, call: Call) returns (r: OpResult)
      requires handle == Absent
      modifies `files
      ensures files == if call.effect && i in old(files) then old(files) - {i} else old(files)
      ensures r == if i !in old(files) && call.reported then NotFound
                   else if i in old(files) && call.Succeeds() then Done else Failed
    {
      if i !in files {
        return if call.reported then NotFound else Failed;
      }
      r := Failed;
      if call.effect {
        files := files - {i};
        r := if call.reported then Done else Failed;
      }
    }

    method Rename(source: nat, dest: nat, call: Call) returns (r: OpResult)
      requires handle == Absent && source != dest && dest !in files
      modifies `files
      ensures files == if call.effect && source in old(files) then Move(old(files), source, dest) else old(files)
      ensures r == if source !in old(files) && call.reported then NotFound
                   else if source in old(files) && call.Succeeds() then Done else Failed
    {
      if source !in files {
        return if call.reported then NotFound else Failed;
      }
      r := Failed;
      if call.effect {
        files := Move(files, source, dest);
        r := if call.reported then Done else Failed;
      }
    }

    /** One turn of the rotation: clears slot i, then moves slot i - 1 into it. */
    method ShiftInto(i: nat, script: Script) returns (ok: bool)
      requires handle == Absent && 1 <= i <= backups
      requires IsSuffix(Chain(files, backups), stream)
      requires i < backups ==> i !in files
      modifies `files
      ensures IsSuffix(Chain(files, backups), stream)
      ensures ok ==> files == Turned(old(files), i)
      ensures ok <==> TurnSucceeds(old(files), backups, script, i)
      ensures Foreign(old(files))
      ensures WithinLimit(old(files), limit, backups) ==> WithinLimit(files, limit, backups)
    {
      hide Chain, IsSuffix, WithinLimit, Unharmed, Move;
      ClearUnharmed(files, stream, limit, backups, i);
      ghost var cleared := files - {i};
      if i - 1 in files {
        MoveUnharmed(files, cleared, stream, limit, backups, i);
      }
      NoHarm(files, stream, limit, backups);
      var removed := Remove(i, script(RemoveFile(i)));
      assert files == old(files) || files == cleared;
      if removed == Failed {
        Harmless(old(files), files);
        return false;
      }
      assert files == cleared;
      var renamed := Rename(i - 1, i, script(RenameFile(i)));
      ok := renamed != Failed;
      Harmless(old(files), files);
    }

    /** What the step's contract says of files that are unharmed. */
    lemma Harmless(before: Files, now: Files)
      requires files == now && Unharmed(before, now, stream, limit, backups)
      ensures IsSuffix(Chain(files, backups), stream) && Foreign(before)
      ensures WithinLimit(before, limit, backups) ==> WithinLimit(files, limit, backups)
    {
      hide Chain, IsSuffix, WithinLimit;
    }

    /** Shifts every backup one place up and starts a new current file. Cut
        short at any operation, what is left is still the end of the log. */
    method RotateFiles(script: Script) returns (ok: bool)
      requires Valid() && handle != Absent
      modifies this
      ensures Valid() && stream == old(stream) && Foreign(old(files))
      ensures ok ==> handle == Open && files == Shifted(old(files), backups) && (backups >= 1 ==> size == 0)
      ensures backups >= 1 && WithinLimit(old(files), limit, backups) ==> WithinLimit(files, limit, backups)
      // Nothing but a failed close ruins the handle, and then no file is touched.
      ensures handle == Broken <==> old(handle) == Broken || !script(CloseFile).Succeeds()
      ensures handle == Broken ==> !ok && files == old(files)
      ensures ok <==> old(handle) == Open && RotationSucceeds(old(files), backups, script)
    {
      hide Chain, IsSuffix, Shifted, Turned, PartlyShifted;
      if handle == Broken || !script(CloseFile).Succeeds() {
        // A handle whose close failed can neither be written nor closed again.
        handle := Broken;
        return false;
      }
      handle := Absent;
      NothingShifted(files, backups);
      var i := backups;
      while i >= 1
        invariant 0 <= i <= backups
        invariant handle == Absent && stream == old(stream)
        invariant IsSuffix(Chain(files, backups), stream)
        invariant PartlyShifted(old(files), files, i, backups)
        invariant WithinLimit(old(files), limit, backups) ==> WithinLimit(files, limit, backups)
        invariant forall j :: i < j <= backups ==> TurnSucceeds(old(files), backups, script, j)
      {
        TurnShifts(old(files), files, i, backups);
        SameTurn(old(files), files, i, backups, script);
        MidwayFacts(old(files), files, i, backups);
        var shifted := ShiftInto(i, script);
        if !shifted {
          assert !TurnSucceeds(old(files), backups, script, i);
          return false;
        }
        i := i - 1;
      }
      MidwayFacts(old(files), files, 0, backups);
      IsShifted(old(files), files, backups);
      ok := OpenCurrent(script(OpenNew));
    }

    /** The first half of Write: reopens the file if need be and rotates if the message
        does not fit. */
    method MakeRoom(p: Bytes, script: Script) returns (ready: bool)
      requires Valid()
      modifies this
      ensures Valid() && stream == old(stream) && Foreign(old(files))
      ensures ready <==> Appends(old(files), old(handle), limit, backups, p, script)
      ensures ready ==> handle == Open && files == Room(old(files), limit, backups, p)
      ensures ready && backups >= 1 ==> |files[0]| + |Kept(p, limit)| <= limit
      ensures backups >= 1 && WithinLimit(old(files), limit, backups) ==> WithinLimit(files, limit, backups)
      ensures handle == Broken <==> old(handle) == Broken || Breaks(old(files), old(handle), limit, p, script)
      ensures handle == Broken ==> !ready
      ensures old(handle) == Broken ==> files == old(files)
    {
      hide Chain, IsSuffix, Shifted;
      if handle == Absent {
        var reopened := OpenCurrent(script(Reopen));
        if !reopened {
          return false;
        }
      }
      ghost var present := old(files)[0 := Own(old(files), 0)];
      assert handle == Open ==> files == present;
      if size + |p| > limit {
        ready := false;
        if script(Permit).Succeeds() {
          ready := RotateFiles(script);
        }
        if !ready {
          return;
        }
      }
      // A write on a ruined handle fails.
      ready := handle == Open;
    }

    /** Appends one message, rotating first when it would not fit. The count is
        what the caller is told; the stream says what was written. */
    method Write(p: Bytes, script: Script) returns (n: nat, ok: bool)
      requires Valid()
      modifies this
      ensures Valid() && Foreign(old(files))
      // Success stores the whole message, or as much of it as one file may hold.
      ensures ok ==> n == |p| && Piece(old(files), old(handle), limit, backups, p, script) == Kept(p, limit)
      ensures ok ==> files == AfterWrite(old(files), limit, backups, p)
      // It succeeds exactly when every operation it needs does.
      ensures ok <==> Stores(old(files), old(handle), limit, backups, p, script)
      // What it stores is counted, except that success counts the whole message.
      ensures stream == old(stream) + Piece(old(files), old(handle), limit, backups, p, script)
      ensures !ok ==> n == |Piece(old(files), old(handle), limit, backups, p, script)|
      ensures backups >= 1 && WithinLimit(old(files), limit, backups) ==> WithinLimit(files, limit, backups)
      // The handle is ruined exactly by a failed close, and then nothing is stored; a
      // ruined handle stays so.
      ensures handle == Broken <==> old(handle) == Broken || Breaks(old(files), old(handle), limit, p, script)
      ensures handle == Broken ==> !ok && n == 0 && stream == old(stream)
      ensures old(handle) == Broken ==> files == old(files)
    {
      hide Chain, IsSuffix, Shifted, Room, Appends, Breaks;
      var ready := MakeRoom(p, script);
      if !ready {
        assert stream == stream + [];
        return 0, false;
      }
      n, ok := Append(Kept(p, limit), script(AppendBytes));
      if ok {
        assert Kept(p, limit)[..n] == Kept(p, limit);
        n := |p|;
      }
    }

    /** The write to the open file: all of it, or a prefix and an error. */
    method Append(q: Bytes, call: Call) returns (n: nat, ok: bool)
      requires Valid() && handle == Open
      modifies this
      ensures Valid() && handle == Open
      ensures ok == call.Succeeds() && n == if ok || call.partial > |q| then |q| else call.partial
      ensures files == old(files)[0 := old(files)[0] + q[..n]]
      ensures stream == old(stream) + q[..n]
    {
      ok := call.Succeeds();
      n := if ok || call.partial > |q| then |q| else call.partial;
      AppendExtendsChain(files, q[..n], backups);
      SuffixAppend(Chain(files, backups), stream, q[..n]);
      files := files[0 := files[0] + q[..n]];
      size := size + n;
      stream := stream + q[..n];
    }

    /** Syncs and closes; the handle is given up in any case. */
    method Close(sync: Call, close: Call) returns (ok: bool)
      requires Valid()
      modifies this
      ensures Valid() && handle == Absent && files == old(files) && stream == old(stream)
      ensures ok == (old(handle) == Absent || (old(handle) == Open && sync.Succeeds() && close.Succeeds()))
    {
      ok := handle == Absent || (handle == Open && sync.Succeeds() && close.Succeeds());
      handle := Absent;
    }
  }

  /** What one session looked like: the files and the handle before each message and at
      the end, and for each message what was stored of it and what the caller was told. */
  datatype Record = Record(files: seq<Files>, handles: seq<Handle>, pieces: seq<Bytes>, oks: seq<bool>)

  ghost predicate Covers(r: Record, n: nat) {
    |r.files| == n + 1 && |r.handles| == n + 1 && |r.pieces| == n && |r.oks| == n
  }

  function Joined(pieces: seq<Bytes>): Bytes {
    if pieces == [] then [] else Joined(pieces[..|pieces| - 1]) + pieces[|pieces| - 1]
  }

  /** What holds of message k of a session. */
  ghost predicate Told(r: Record, messages: seq<Bytes>, scripts: nat -> Script, limit: nat, n: nat, k: nat)
    requires Covers(r, |messages|) && k < |messages|
  {
    && r.pieces[k] == Piece(r.files[k], r.handles[k], limit, n, messages[k], scripts(k))
    && (r.oks[k] <==> Stores(r.files[k], r.handles[k], limit, n, messages[k], scripts(k)))
    && (r.handles[k + 1] == Broken <==>
          r.handles[k] == Broken || Breaks(r.files[k], r.handles[k], limit, messages[k], scripts(k)))
    && (r.handles[k] == Broken ==> r.files[k + 1] == r.files[k])
  }

  /** Some close failed before message k. */
  ghost predicate CloseFailedBefore(r: Record, messages: seq<Bytes>, scripts: nat -> Script, limit: nat, k: nat)
    requires Covers(r, |messages|) && k <= |messages|
  {
    exists j :: 0 <= j < k && Breaks(r.files[j], r.handles[j], limit, messages[j], scripts(j))
  }

  /** Any session: whatever is written and whatever fails, the files hold the end of the
      initial log and everything stored since, within the limit, and of every message the
      record says what became of it. */
  method Session(log: Log, messages: seq<Bytes>, scripts: nat -> Script) returns (stored: Bytes, r: Record)
    requires log.Valid()
    modifies log
    ensures log.stream == old(log.stream) + stored
    ensures IsSuffix(Chain(log.files, log.backups), old(log.stream) + stored)
    ensures log.backups >= 1 && WithinLimit(old(log.files), log.limit, log.backups) ==>
              WithinLimit(log.files, log.limit, log.backups)
    ensures Covers(r, |messages|) && stored == Joined(r.pieces)
    ensures r.handles[0] == old(log.handle) && r.handles[|messages|] == log.handle
    ensures r.files[0] == old(log.files) && r.files[|messages|] == log.files
    ensures forall k :: 0 <= k < |messages| ==> Told(r, messages, scripts, log.limit, log.backups, k)
    ensures log.Valid()
  {
    hide AfterWrite, Shifted, Chain, Own, WithinLimit, FaultFree, Breaks, Stores, Piece, IsSuffix;
    stored, r := [], Record([log.files], [log.handle], [], []);
    for i := 0 to |messages|
      invariant log.Valid()
      invariant log.stream == old(log.stream) + stored
      invariant log.backups >= 1 && WithinLimit(old(log.files), log.limit, log.backups) ==>
                  WithinLimit(log.files, log.limit, log.backups)
      invariant Covers(r, i) && stored == Joined(r.pieces)
      invariant r.handles[0] == old(log.handle) && r.handles[i] == log.handle
      invariant r.files[0] == old(log.files) && r.files[i] == log.files
      invariant forall k :: 0 <= k < i ==> Told(r, messages[..i], scripts, log.limit, log.backups, k)
    {
      var n, ok := log.Write(messages[i], scripts(i));
      var last := |r.files| - 1;
      var piece := Piece(r.files[last], r.handles[last], log.limit, log.backups, messages[i], scripts(i));
      ghost var before := r;
      stored := stored + piece;
      r := Record(r.files + [log.files], r.handles + [log.handle], r.pieces + [piece], r.oks + [ok]);
      TellMore(before, r, messages[..i], messages[..i + 1], scripts, log.limit, log.backups);
    }
    assert messages[..|messages|] == messages;
  }

  lemma TellMore(before: Record, after: Record, some: seq<Bytes>, more: seq<Bytes>, scripts: nat -> Script,
                 limit: nat, n: nat)
    requires Covers(before, |some|) && Covers(after, |more|) && some <= more && |more| == |some| + 1
    requires before.files <= after.files && before.handles <= after.handles
    requires before.pieces <= after.pieces && before.oks <= after.oks
    requires forall k :: 0 <= k < |some| ==> Told(before, some, scripts, limit, n, k)
    requires Told(after, more, scripts, limit, n, |some|)
    ensures forall k :: 0 <= k < |more| ==> Told(after, more, scripts, limit, n, k)
  {
    hide FaultFree, Breaks, Kept, Stores;
    forall k | 0 <= k < |more| ensures Told(after, more, scripts, limit, n, k) {
      if k < |some| {
        assert Told(before, some, scripts, limit, n, k);
      }
    }
  }

  /** When the log is usable. The handle is ruined before message k exactly if some close
      failed before it; a message written without faults is stored exactly if none did,
      whatever else failed earlier; and once one did nothing is stored. */
  lemma {:induction false} UsableExactly(r: Record, messages: seq<Bytes>, scripts: nat -> Script,
                                         limit: nat, n: nat, k: nat)
    requires Covers(r, |messages|) && r.handles[0] != Broken && k <= |messages|
    requires forall i :: 0 <= i < |messages| ==> Told(r, messages, scripts, limit, n, i)
    ensures r.handles[k] == Broken <==> CloseFailedBefore(r, messages, scripts, limit, k)
    ensures k < |messages| && FaultFree(scripts(k)) ==>
              (r.oks[k] <==> !CloseFailedBefore(r, messages, scripts, limit, k))
    ensures k < |messages| && CloseFailedBefore(r, messages, scripts, limit, k) ==>
              !r.oks[k] && r.pieces[k] == [] && r.files[k + 1] == r.files[k]
  {
    hide FaultFree, Breaks, Kept, Stores;
    if k > 0 {
      UsableExactly(r, messages, scripts, limit, n, k - 1);
      assert Told(r, messages, scripts, limit, n, k - 1);
      if CloseFailedBefore(r, messages, scripts, limit, k) && r.handles[k - 1] != Broken {
        var j :| 0 <= j < k && Breaks(r.files[j], r.handles[j], limit, messages[j], scripts(j));
        assert j == k - 1;
      }
    }
    if k < |messages| {
      assert Told(r, messages, scripts, limit, n, k);
      if FaultFree(scripts(k)) && r.handles[k] != Broken {
        FaultFreeStores(r.files[k], r.handles[k], limit, n, messages[k], scripts(k));
      }
      if r.handles[k] == Broken {
        RuinedStoresNothing(r.files[k], limit, n, messages[k], scripts(k));
      }
    }
  }

  const FINE := Call(true, true, 0)
  const REFUSED := Call(false, false, 0)

  /** The failing input and its neighbour: a full log, and a first message whose rotation
      meets one failing operation. If that is the close, the second message is lost
      although nothing fails any more; if it is a removal, the second message is stored. */
  method OneFailure(failing: Operation) returns (stored: Bytes, r: Record)
    requires failing == CloseFile || failing == RemoveFile(1)
    ensures Covers(r, 2) && !r.oks[0] && (r.oks[1] <==> failing != CloseFile)
    ensures stored == if failing == CloseFile then [] else [2]
  {
    hide *;
    var log := new Log(1, 1, map[0 := [7]]);
    stored, r := Session(log, [[1], [2]], Failing(failing));
    WhatIsTold(failing, [[1], [2]], r);
  }

  /** Scripts in which one operation of the first message fails. */
  function Failing(failing: Operation): nat -> Script {
    k => operation => if k == 0 && operation == failing then REFUSED else FINE
  }

  lemma WhatIsTold(failing: Operation, messages: seq<Bytes>, r: Record)
    requires failing == CloseFile || failing == RemoveFile(1)
    requires messages == [[1], [2]] && Covers(r, 2)
    requires r.files[0] == map[0 := [7]] && r.handles[0] == Absent
    requires forall k :: 0 <= k < 2 ==> Told(r, messages, Failing(failing), 1, 1, k)
    ensures !r.oks[0] && (r.oks[1] <==> failing != CloseFile)
    ensures Joined(r.pieces) == if failing == CloseFile then [] else [2]
  {
    var scripts := Failing(failing);
    assert FaultFree(scripts(1));
    FirstFails(failing, scripts(0));
    FirstBreaks(failing, scripts(0));
    UsableExactly(r, messages, scripts, 1, 1, 1);
    TwoPieces(r.pieces);
    hide Stores, FaultFree, Joined;
    assert Told(r, messages, scripts, 1, 1, 0);
    assert Told(r, messages, scripts, 1, 1, 1);
    assert Kept([2], 1) == [2];
    hide Breaks;
    assert CloseFailedBefore(r, messages, scripts, 1, 1) <==> failing == CloseFile;
  }

  lemma FirstFails(failing: Operation, script: Script)
    requires failing == CloseFile || failing == RemoveFile(1)
    requires script(failing) == REFUSED
    ensures !Appends(map[0 := [7]], Absent, 1, 1, [1], script)
  {
    assert !RotationSucceeds(map[0 := [7]][0 := [7]], 1, script) by {
      if failing == RemoveFile(1) {
        assert !TurnSucceeds(map[0 := [7]][0 := [7]], 1, script, 1);
      }
    }
  }

  lemma FirstBreaks(failing: Operation, script: Script)
    requires failing == CloseFile || failing == RemoveFile(1)
    requires forall operation :: script(operation) == if operation == failing then REFUSED else FINE
    ensures Breaks(map[0 := [7]], Absent, 1, [1], script) <==> failing == CloseFile
  {}

  lemma TwoPieces(pieces: seq<Bytes>)
    requires |pieces| == 2
    ensures Joined(pieces) == pieces[0] + pieces[1]
  {
    assert pieces[..1][..0] == [];
    assert Joined(pieces[..1]) == [] + pieces[0] == pieces[0];
  }
}
