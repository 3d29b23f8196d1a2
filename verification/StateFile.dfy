/** The state directory and the all-or-nothing write built on a temporary file. */
module StateFile {
  import opened Common
  import opened Identity
  import opened MigrationMachine

  const TEMP_SUFFIX := ".tmp"

  predicate IsTemp(path: string) {
    |path| >= |TEMP_SUFFIX| && path[|path| - |TEMP_SUFFIX|..] == TEMP_SUFFIX
  }

  /** The directory without leftover temporary files. */
  function Visible(files: Disk): Disk {
    map path | path in files && !IsTemp(path) :: files[path]
  }

  lemma TempInvisible(files: Disk, path: string, data: Bytes)
    requires IsTemp(path)
    ensures Visible(files[path := data]) == Visible(files)
    ensures Visible(files - {path}) == Visible(files)
  {}

  lemma VisibleUpdate(files: Disk, path: string, data: Bytes)
    requires !IsTemp(path)
    ensures Visible(files[path := data]) == Visible(files)[path := data]
  {}

  /** How the system calls of one write turn out. */
  datatype WritePlan = WritePlan(
    created: bool,          // the temporary file is created
    written: Option<nat>,   // how much of it is written before an error, if there is one
    synced: bool,
    closed: bool,
    published: bool,        // the link or replacement takes effect
    reported: bool,         // and is reported to have done so
    cleaned: bool)          // the temporary file is removed
  {
    predicate Staged() {
      created && written.None? && synced && closed
    }

    function Prefix(data: Bytes): Bytes {
      if written.Some? && written.value <= |data| then data[..written.value] else data
    }

    function Fault(): WriteFault {
      if !Staged() || !published then Fails else if reported then Commits else CommitsButFails
    }
  }

  class Directory {
    var files: Disk
    /** Every directory state so far: a crash leaves one of them. */
    ghost var history: seq<Disk>

    ghost predicate Valid()
      reads this
    {
      history != [] && history[|history| - 1] == files
    }

    ghost function Contents(): Disk
      reads this
    {
      Visible(files)
    }

    constructor (initial: Disk)
      ensures Valid() && files == initial && history == [initial]
    {
      files := initial;
      history := [initial];
    }

    /** One file-system effect. */
    method Put(next: Disk)
      requires Valid()
      modifies this
      ensures Valid() && files == next && history == old(history) + [next]
    {
      files := next;
      history := history + [next];
    }

    /** A read gives the bytes exactly when the file is there and every check and call goes
        well, and says that a file is missing exactly when the system says so. */
    method ReadPath(path: string, plan: ReadPlan) returns (r: Read)
      requires !IsTemp(path)
      ensures r == ReadFile(Contents(), path, plan)
      ensures r.Missing? <==> plan.inspected && path !in files
      ensures r.Data? <==> plan == CLEAN_READ && path in files && |files[path]| <= MAX_STATE_SIZE
      ensures r.Data? ==> r.data == files[path]
    {
      if !plan.inspected {
        return Unreadable;
      }
      if path !in files {
        return Missing;
      }
      if !plan.regular || |files[path]| > MAX_STATE_SIZE {
        return Unreadable;
      }
      if !plan.guarded || !plan.delivered {
        return Unreadable;
      }
      r := Data(files[path]);
    }

    /** Creates and fills the temporary file; only it changes. */
    method Stage(data: Bytes, tmp: string, plan: WritePlan) returns (ok: bool)
      requires Valid() && IsTemp(tmp) && tmp !in files
      modifies this
      ensures Valid()
      ensures ok == plan.Staged()
      ensures files == if plan.created then old(files)[tmp := plan.Prefix(data)] else old(files)
      ensures |old(history)| <= |history| && history[..|old(history)|] == old(history)
      ensures forall i :: |old(history)| <= i < |history| ==> Visible(history[i]) == old(Contents())
      ensures Contents() == old(Contents())
    {
      ok := false;
      if plan.created {
        TempInvisible(files, tmp, []);
        Put(files[tmp := []]);
        TempInvisible(files, tmp, plan.Prefix(data));
        Put(files[tmp := plan.Prefix(data)]);
        ok := plan.written.None? && plan.synced && plan.closed;
      }
    }

    /** Publishes `data` at `path` through the fresh temporary file `tmp`. At
        every instant `path` holds its old content or all of `data`. */
    method Write(path: string, data: Bytes, exclusive: bool, tmp: string, plan: WritePlan) returns (ok: bool)
      requires Valid() && !IsTemp(path) && IsTemp(tmp) && tmp !in files
      modifies this
      ensures Valid()
      ensures (Contents(), ok) == WriteFile(old(Contents()), path, data, exclusive, plan.Fault())
      ensures |old(history)| <= |history| && history[..|old(history)|] == old(history)
      ensures forall i :: |old(history)| <= i < |history| ==> Visible(history[i]) in {old(Contents()), Contents()}
      ensures forall other :: other != path && other != tmp ==>
                (other in files <==> other in old(files)) && (other in files ==> files[other] == old(files[other]))
      ensures plan.cleaned ==> tmp !in files
    {
      ok := false;
      var staged := Stage(data, tmp, plan);
      if staged && plan.published && !(exclusive && path in files) {
        VisibleUpdate(files, path, data);
        TempInvisible(files[path := data], tmp, []);
        Put(if exclusive then files[path := files[tmp]] else files[path := files[tmp]] - {tmp});
        ok := plan.reported;
      }
      if plan.created && plan.cleaned {
        TempInvisible(files, tmp, []);
        Put(files - {tmp});
      }
    }
  }
}
