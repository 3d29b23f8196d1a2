/** Which directories downloads may be written to, and under which protection: the roots
    accepted at configuration, the directory of one command, and its boundary. */
module RootPolicy {
  import opened Common
  import opened WindowsPath

  datatype Error =
    | InvalidEntry
    | EntireDrive
    | OverlapsRuntime
    | OverlapsInstall
    | InvalidDirectory
    | DirectoryOutside
    | NotAllowed

  /** The runtime and install trees; either may be unset. */
  datatype Trees = Trees(runtime: Option<Path>, install: Option<Path>)

  function Data(runtime: Path): Path {
    Path(runtime.volume, runtime.names + ["data"])
  }

  /** One entry of the allow-list. */
  function CheckEntry(p: Platform, root: string, t: Trees): Result<Path, Error> {
    var clean := CleanDestination(p, root);
    if clean.None? then Err(InvalidEntry)
    else
      var path := clean.value;
      if path.names == [] then Err(EntireDrive)
      else if t.runtime.Some?
        && (ContainsPath(p, path, t.runtime.value)
            || (ContainsPath(p, t.runtime.value, path)
                && (!ContainsPath(p, Data(t.runtime.value), path) || ContainsPath(p, path, Data(t.runtime.value)))))
      then Err(OverlapsRuntime)
      else if t.install.Some? && (ContainsPath(p, path, t.install.value) || ContainsPath(p, t.install.value, path))
      then Err(OverlapsInstall)
      else Ok(path)
  }

  function CheckEntries(p: Platform, roots: seq<string>, t: Trees): Result<seq<Path>, Error> {
    if roots == [] then Ok([])
    else
      var before := CheckEntries(p, roots[..|roots| - 1], t);
      if before.Err? then before
      else
        var last := CheckEntry(p, roots[|roots| - 1], t);
        if last.Err? then Err(last.error) else Ok(before.value + [last.value])
  }

  predicate InSome(p: Platform, roots: seq<Path>, path: Path) {
    exists i :: 0 <= i < |roots| && ContainsPath(p, roots[i], path)
  }

  function Validated(p: Platform, directory: string, roots: seq<string>, t: Trees): Result<seq<Path>, Error> {
    var entries := CheckEntries(p, if roots == [] then [directory] else roots, t);
    if entries.Err? then entries
    else
      var path := CleanDestination(p, directory);
      if path.None? then Err(InvalidDirectory)
      else if InSome(p, entries.value, path.value) then entries
      else Err(DirectoryOutside)
  }

  method ValidateRoots(p: Platform, directory: string, allowed: seq<string>, t: Trees)
    returns (r: Result<seq<Path>, Error>)
    ensures r == Validated(p, directory, allowed, t)
  {
    hide CleanDestination, ContainsPath;
    var roots := if allowed == [] then [directory] else allowed;
    var cleaned: seq<Path> := [];
    for i := 0 to |roots|
      invariant CheckEntries(p, roots[..i], t) == Ok(cleaned)
    {
      assert roots[..i + 1][..i] == roots[..i];
      var clean := CleanDestination(p, roots[i]);
      var entry: Result<Path, Error>;
      if clean.None? {
        entry := Err(InvalidEntry);
      } else {
        var path := clean.value;
        entry := Ok(path);
        if path.names == [] {
          entry := Err(EntireDrive);
        } else {
          if t.runtime.Some? {
            var data := Data(t.runtime.value);
            if ContainsPath(p, path, t.runtime.value)
              || (ContainsPath(p, t.runtime.value, path)
                  && (!ContainsPath(p, data, path) || ContainsPath(p, path, data)))
            {
              entry := Err(OverlapsRuntime);
            }
          }
          if entry.Ok? && t.install.Some?
            && (ContainsPath(p, path, t.install.value) || ContainsPath(p, t.install.value, path))
          {
            entry := Err(OverlapsInstall);
          }
        }
      }
      assert entry == CheckEntry(p, roots[i], t);
      if entry.Err? {
        FirstFailureDecides(p, roots, i + 1, t);
        return Err(entry.error);
      }
      cleaned := cleaned + [entry.value];
    }
    assert roots[..|roots|] == roots;
    var path := CleanDestination(p, directory);
    if path.None? {
      return Err(InvalidDirectory);
    }
    for i := 0 to |cleaned|
      invariant forall j :: 0 <= j < i ==> !ContainsPath(p, cleaned[j], path.value)
    {
      if ContainsPath(p, cleaned[i], path.value) {
        return Ok(cleaned);
      }
    }
    return Err(DirectoryOutside);
  }

  lemma {:induction false} FirstFailureDecides(p: Platform, roots: seq<string>, n: nat, t: Trees)
    requires n <= |roots| && CheckEntries(p, roots[..n], t).Err?
    ensures CheckEntries(p, roots, t) == CheckEntries(p, roots[..n], t)
  {
    if n == |roots| {
      assert roots[..n] == roots;
    } else {
      assert roots[..|roots| - 1][..n] == roots[..n];
      FirstFailureDecides(p, roots[..|roots| - 1], n, t);
    }
  }

  // ------------------------------------------------------- commands and boundaries

  /** A boundary pins and checks what is opened below its root; the relaxed kind keeps
      the access list of a shared download folder. */
  datatype Boundary = Boundary(root: Path, relaxed: bool)

  datatype Config = Config(directory: string, allowed: seq<Path>, boundary: Option<Boundary>)

  function FirstContaining(p: Platform, roots: seq<Path>, path: Path): Option<Path> {
    if roots == [] then None
    else if ContainsPath(p, roots[0], path) then Some(roots[0])
    else FirstContaining(p, roots[1..], path)
  }

  function BoundaryFor(p: Platform, cfg: Config, path: Path): Option<Boundary> {
    if cfg.boundary.None? || ContainsPath(p, cfg.boundary.value.root, path) then cfg.boundary
    else
      var root := FirstContaining(p, cfg.allowed, path);
      if root.Some? then Some(Boundary(root.value, true)) else cfg.boundary
  }

  /** Where a command's file goes; an empty destination means the default directory. */
  function DestinationDirectory(p: Platform, cfg: Config, destination: string): Result<Path, Error> {
    var clean := CleanDestination(p, if destination == "" then cfg.directory else destination);
    if clean.None? then Err(NotAllowed)
    else if cfg.allowed != [] then
      if InSome(p, cfg.allowed, clean.value) then Ok(clean.value) else Err(NotAllowed)
    else if cfg.boundary.Some? then
      var own := CleanDestination(p, cfg.directory);
      if own.Some? && ContainsPath(p, own.value, clean.value) then Ok(clean.value) else Err(NotAllowed)
    else Ok(clean.value)
  }

  // --------------------------------------------------------------- accepted roots

  lemma {:induction false} EntriesExactly(p: Platform, roots: seq<string>, t: Trees)
    ensures CheckEntries(p, roots, t).Ok? <==> forall i :: 0 <= i < |roots| ==> CheckEntry(p, roots[i], t).Ok?
    ensures CheckEntries(p, roots, t).Ok? ==>
      && |CheckEntries(p, roots, t).value| == |roots|
      && forall i :: 0 <= i < |roots| ==> CheckEntry(p, roots[i], t) == Ok(CheckEntries(p, roots, t).value[i])
  {
    hide CheckEntry;
    if roots != [] {
      var init := roots[..|roots| - 1];
      EntriesExactly(p, init, t);
      assert forall i :: 0 <= i < |init| ==> init[i] == roots[i];
      if CheckEntries(p, init, t).Err? {
        var i :| 0 <= i < |init| && CheckEntry(p, init[i], t).Err?;
        assert CheckEntry(p, roots[i], t).Err?;
      }
    }
  }

  /** A change of letter case neither makes nor unmakes a colon or a device name. */
  ghost predicate CaseKeepsNames(p: Platform) {
    forall a, b :: SameWord(p, a, b) ==> (':' in a <==> ':' in b) && p.reserved(a) == p.reserved(b)
  }

  lemma WithinShorter(p: Platform, root: Path, path: Path)
    requires Within(p, root, path)
    ensures |root.names| <= |path.names|
  {}

  lemma PlainThroughout(p: Platform, root: Path, path: Path)
    requires CaseKeepsNames(p) && Within(p, root, path)
    requires Plain(p, root.names) && Plain(p, path.names[|root.names|..])
    ensures Plain(p, path.names)
  {
    var rest := path.names[|root.names|..];
    forall j | 0 <= j < |path.names| ensures ':' !in path.names[j] && !p.reserved(path.names[j]) {
      if j < |root.names| {
        assert SameWord(p, root.names[j], path.names[j]);
      } else {
        assert rest[j - |root.names|] == path.names[j];
      }
    }
  }

  /** A directory that valid names lie in has plain names. */
  lemma PlainAbove(p: Platform, own: Path, file: Path)
    requires CaseKeepsNames(p) && Within(p, own, file) && ValidNames(p, file.names)
    ensures Plain(p, own.names)
  {
    ValidIsPlain(p, file.names);
    forall j | 0 <= j < |own.names| ensures ':' !in own.names[j] && !p.reserved(own.names[j]) {
      assert SameWord(p, own.names[j], file.names[j]);
    }
  }

  /** A path above a tree or equal to it, with nothing on the way down that hides it. */
  predicate Sees(p: Platform, path: Path, tree: Path) {
    Within(p, path, tree) && Plain(p, tree.names[|path.names|..])
  }

  /** What an accepted root is, in terms of names: it does not see the runtime root or the
      install tree, lies inside the runtime root only strictly below data, and not inside
      the install tree. */
  predicate Clear(p: Platform, path: Path, t: Trees) {
    && (t.runtime.Some? ==>
          && !Sees(p, path, t.runtime.value)
          && (Within(p, t.runtime.value, path) ==>
                Within(p, Data(t.runtime.value), path) && !Within(p, path, Data(t.runtime.value))))
    && (t.install.Some? ==> !Sees(p, path, t.install.value) && !Within(p, t.install.value, path))
  }

  /** The same with containment in place of seeing: never the runtime root or above it,
      inside it only strictly below data, apart from the install tree. */
  predicate Apart(p: Platform, path: Path, t: Trees) {
    && (t.runtime.Some? ==>
          && !Within(p, path, t.runtime.value)
          && (Within(p, t.runtime.value, path) ==>
                Within(p, Data(t.runtime.value), path) && !Within(p, path, Data(t.runtime.value))))
    && (t.install.Some? ==> !Within(p, path, t.install.value) && !Within(p, t.install.value, path))
  }

  /** The trees as cleaned paths. */
  predicate CleanTrees(t: Trees) {
    (t.runtime.Some? ==> NoDots(t.runtime.value.names)) && (t.install.Some? ==> NoDots(t.install.value.names))
  }

  /** Trees whose own names hold no colon and no device name. */
  predicate OrdinaryTrees(p: Platform, t: Trees) {
    && (t.runtime.Some? ==> Plain(p, t.runtime.value.names))
    && (t.install.Some? ==> Plain(p, t.install.value.names))
  }

  /** For ordinary trees the two agree. */
  lemma ClearIsApart(p: Platform, path: Path, t: Trees)
    requires OrdinaryTrees(p, t)
    ensures Clear(p, path, t) <==> Apart(p, path, t)
  {
    if t.runtime.Some? {
      OrdinaryIsSeen(p, path, t.runtime.value);
    }
    if t.install.Some? {
      OrdinaryIsSeen(p, path, t.install.value);
    }
    hide Within, Sees, Plain;
  }

  lemma OrdinaryIsSeen(p: Platform, path: Path, tree: Path)
    requires Plain(p, tree.names)
    ensures Sees(p, path, tree) <==> Within(p, path, tree)
  {}

  lemma ContainsIsSeeing(p: Platform, path: Path, tree: Path)
    requires NoDots(tree.names)
    ensures ContainsPath(p, path, tree) <==> Sees(p, path, tree)
  {
    ContainsExactly(p, path, tree);
  }

  lemma DataHasNoDots(runtime: Path)
    requires NoDots(runtime.names)
    ensures NoDots(Data(runtime).names)
  {}

  lemma SeesEqual(p: Platform, path: Path, tree: Path)
    requires Within(p, path, tree) && Within(p, tree, path)
    ensures Sees(p, path, tree)
  {}

  /** An entry is accepted exactly when it cleans to something below a drive and clear of
      both trees. */
  lemma EntryExactly(p: Platform, root: string, t: Trees)
    requires CleanTrees(t)
    ensures CheckEntry(p, root, t).Ok? <==>
      && CleanDestination(p, root).Some?
      && CleanDestination(p, root).value.names != []
      && Clear(p, CleanDestination(p, root).value, t)
    ensures CheckEntry(p, root, t).Ok? ==> CleanDestination(p, root) == Some(CheckEntry(p, root, t).value)
  {
    CleanDestinationExactly(p, root);
    if CleanDestination(p, root).Some? {
      var path := CleanDestination(p, root).value;
      if t.runtime.Some? {
        RuntimeSeen(p, path, t.runtime.value);
      }
      if t.install.Some? {
        ContainsIsSeeing(p, path, t.install.value);
        ContainsIsWithin(p, t.install.value, path);
      }
      hide CleanDestination, ContainsPath, Within, Sees;
    }
  }

  /** How the checks against the runtime root and its data directory come out. */
  lemma RuntimeSeen(p: Platform, path: Path, runtime: Path)
    requires NoDots(runtime.names) && ValidNames(p, path.names)
    ensures ContainsPath(p, path, runtime) <==> Sees(p, path, runtime)
    ensures ContainsPath(p, runtime, path) <==> Within(p, runtime, path)
    ensures !ContainsPath(p, Data(runtime), path) || ContainsPath(p, path, Data(runtime)) <==>
      !Within(p, Data(runtime), path) || Within(p, path, Data(runtime))
  {
    DataHasNoDots(runtime);
    ContainsIsSeeing(p, path, runtime);
    ContainsIsSeeing(p, path, Data(runtime));
    ContainsIsWithin(p, runtime, path);
    ContainsIsWithin(p, Data(runtime), path);
    if Within(p, Data(runtime), path) && Within(p, path, Data(runtime)) {
      SeesEqual(p, path, Data(runtime));
    }
    hide ContainsPath;
  }

  /** Every path under a root that is clear is clear too. */
  lemma BelowClear(p: Platform, root: Path, path: Path, t: Trees)
    requires CaseKeepsNames(p) && ValidNames(p, path.names)
    requires Clear(p, root, t) && Within(p, root, path)
    ensures Clear(p, path, t)
  {
    hide Within, Sees, CaseKeepsNames, ValidNames;
    if t.runtime.Some? {
      BelowTree(p, root, path, t.runtime.value);
      if Within(p, t.runtime.value, path) {
        WithinTransitive(p, Data(t.runtime.value), root, path);
        if Within(p, path, Data(t.runtime.value)) {
          WithinTransitive(p, root, path, Data(t.runtime.value));
        }
      }
    }
    if t.install.Some? {
      BelowTree(p, root, path, t.install.value);
    }
  }

  /** A path below a root that does not see a tree does not see it either, and lies in the
      tree only if the root does. */
  lemma BelowTree(p: Platform, root: Path, path: Path, tree: Path)
    requires CaseKeepsNames(p) && ValidNames(p, path.names)
    requires Within(p, root, path) && !Sees(p, root, tree)
    ensures !Sees(p, path, tree)
    ensures Within(p, tree, path) ==> Within(p, tree, root)
  {
    hide Within, CaseKeepsNames, ValidNames;
    if Sees(p, path, tree) {
      ValidIsPlain(p, path.names);
      PlainThroughout(p, path, tree);
      WithinTransitive(p, root, path, tree);
      WithinShorter(p, root, tree);
    }
    if Within(p, tree, path) {
      PlainAbove(p, tree, path);
      WithinComparable(p, root, tree, path);
      if Within(p, root, tree) {
        WithinShorter(p, root, tree);
      }
    }
  }

  /** The policy: whatever list is accepted, every destination under any accepted root is
      outside the install tree and does not see it, does not see the runtime root, and if it
      is inside the runtime root it is strictly below data; with ordinary trees, then, it is
      apart from them. */
  lemma AcceptedRootsKeepApart(p: Platform, directory: string, roots: seq<string>, t: Trees, path: Path)
    requires CaseKeepsNames(p) && CleanTrees(t)
    requires Validated(p, directory, roots, t).Ok?
    requires InSome(p, Validated(p, directory, roots, t).value, path)
    requires ValidNames(p, path.names)
    ensures Clear(p, path, t)
    ensures OrdinaryTrees(p, t) ==> Apart(p, path, t)
  {
    hide CleanDestination, Clear, Apart, OrdinaryTrees, CaseKeepsNames;
    var accepted := Validated(p, directory, roots, t).value;
    var list := if roots == [] then [directory] else roots;
    EntriesExactly(p, list, t);
    var i :| 0 <= i < |accepted| && ContainsPath(p, accepted[i], path);
    EntryExactly(p, list[i], t);
    ContainsIsWithin(p, accepted[i], path);
    BelowClear(p, accepted[i], path, t);
    if OrdinaryTrees(p, t) {
      ClearIsApart(p, path, t);
    }
  }

  /** The same for the directories that commands are given. */
  lemma DestinationsKeepApart(p: Platform, directory: string, roots: seq<string>, t: Trees, cfg: Config,
                              destination: string)
    requires CaseKeepsNames(p) && CleanTrees(t)
    ensures
      var target := DestinationDirectory(p, cfg, destination);
      Validated(p, directory, roots, t) == Ok(cfg.allowed) && target.Ok? ==>
        Clear(p, target.value, t) && (OrdinaryTrees(p, t) ==> Apart(p, target.value, t))
  {
    if Validated(p, directory, roots, t) == Ok(cfg.allowed) && DestinationDirectory(p, cfg, destination).Ok? {
      var list := if roots == [] then [directory] else roots;
      EntriesExactly(p, list, t);
      CleanDestinationExactly(p, if destination == "" then cfg.directory else destination);
      hide CleanDestination, ContainsPath, Clear, Apart, OrdinaryTrees, CheckEntry, CaseKeepsNames;
      AcceptedRootsKeepApart(p, directory, roots, t, DestinationDirectory(p, cfg, destination).value);
    }
  }

  /** Why the trees' own names matter: a root that contains a tree is turned away exactly
      when the tree's names below it hold no colon and no device name. */
  lemma AncestorRejectedExactly(p: Platform, root: string, path: Path, tree: Path)
    requires CleanDestination(p, root) == Some(path) && path.names != []
    requires NoDots(tree.names) && Within(p, path, tree)
    ensures CheckEntry(p, root, Trees(Some(tree), None)).Err? <==> Plain(p, tree.names[|path.names|..])
    ensures CheckEntry(p, root, Trees(None, Some(tree))).Err? <==> Plain(p, tree.names[|path.names|..])
  {
    CleanDestinationExactly(p, root);
    ContainsExactly(p, path, tree);
    ContainsIsWithin(p, tree, path);
    hide CleanDestination, ContainsPath;
  }

  // --------------------------------------------------------------------- stability

  function Texts(paths: seq<Path>): seq<string> {
    seq(|paths|, i requires 0 <= i < |paths| => Text(paths[i]))
  }

  /** Checking the cleaned directory and the accepted roots again, as the manager does
      with the runtime root only, accepts the same list. */
  lemma RevalidationIsStable(p: Platform, directory: string, roots: seq<string>, t: Trees)
    requires Validated(p, directory, roots, t).Ok?
    ensures
      var accepted := Validated(p, directory, roots, t).value;
      && accepted != [] && CleanDestination(p, directory).Some?
      && Validated(p, Text(CleanDestination(p, directory).value), Texts(accepted), Trees(t.runtime, None)) ==
           Ok(accepted)
  {
    var accepted := Validated(p, directory, roots, t).value;
    EntriesAgain(p, if roots == [] then [directory] else roots, t);
    CleanDestinationExactly(p, directory);
    CleanDestinationIdempotent(p, CleanDestination(p, directory).value);
    hide CheckEntries, Text, CleanDestination, InSome;
  }

  lemma EntriesAgain(p: Platform, list: seq<string>, t: Trees)
    requires list != [] && CheckEntries(p, list, t).Ok?
    ensures CheckEntries(p, Texts(CheckEntries(p, list, t).value), Trees(t.runtime, None)) == CheckEntries(p, list, t)
    ensures CheckEntries(p, list, t).value != []
  {
    var accepted := CheckEntries(p, list, t).value;
    EntriesExactly(p, list, t);
    var texts, u := Texts(accepted), Trees(t.runtime, None);
    forall i | 0 <= i < |texts| ensures CheckEntry(p, texts[i], u) == Ok(accepted[i]) {
      EntryAgain(p, list[i], t);
    }
    EntriesExactly(p, texts, u);
    hide CheckEntry, CheckEntries, Text;
    assert CheckEntries(p, texts, u).value == accepted;
  }

  lemma EntryAgain(p: Platform, root: string, t: Trees)
    requires CheckEntry(p, root, t).Ok?
    ensures CheckEntry(p, Text(CheckEntry(p, root, t).value), Trees(t.runtime, None)) == CheckEntry(p, root, t)
  {
    CleanDestinationExactly(p, root);
    CleanDestinationIdempotent(p, CheckEntry(p, root, t).value);
    hide CleanDestination, ContainsPath, Text;
  }

  // -------------------------------------------------------------------- boundaries

  /** A manager whose allow-list was accepted with its boundary's root as the runtime. */
  ghost predicate Checked(p: Platform, directory: string, roots: seq<string>, cfg: Config) {
    && cfg.boundary.Some? && !cfg.boundary.value.relaxed && NoDots(cfg.boundary.value.root.names)
    && Validated(p, directory, roots, OwnTrees(cfg)) == Ok(cfg.allowed)
  }

  function OwnTrees(cfg: Config): Trees {
    Trees(if cfg.boundary.Some? then Some(cfg.boundary.value.root) else None, None)
  }

  /** Every accepted root is clean, and is not found to contain the runtime root. */
  lemma AllowedRootsAreChecked(p: Platform, directory: string, roots: seq<string>, cfg: Config, i: nat)
    requires Checked(p, directory, roots, cfg) && i < |cfg.allowed|
    ensures Cleaned(p, cfg.allowed[i]) && !ContainsPath(p, cfg.allowed[i], cfg.boundary.value.root)
  {
    var list := if roots == [] then [directory] else roots;
    hide CleanDestination, ContainsPath;
    EntriesExactly(p, list, OwnTrees(cfg));
    CleanDestinationExactly(p, list[i]);
  }

  lemma {:induction false} FirstContainingExactly(p: Platform, roots: seq<Path>, path: Path)
    ensures FirstContaining(p, roots, path).Some? <==> InSome(p, roots, path)
    ensures FirstContaining(p, roots, path).Some? ==>
      FirstContaining(p, roots, path).value in roots && ContainsPath(p, FirstContaining(p, roots, path).value, path)
  {
    hide ContainsPath;
    if roots != [] {
      FirstContainingExactly(p, roots[1..], path);
      if InSome(p, roots, path) && !ContainsPath(p, roots[0], path) {
        var i :| 0 <= i < |roots| && ContainsPath(p, roots[i], path);
        assert ContainsPath(p, roots[1..][i - 1], path);
      }
      if InSome(p, roots[1..], path) {
        var i :| 0 <= i < |roots[1..]| && ContainsPath(p, roots[1..][i], path);
        assert ContainsPath(p, roots[i + 1], path);
      }
    }
  }

  /** Private runtime state never gets the relaxed protection, whatever the path's names
      and the runtime root's own names are. */
  lemma RuntimeNeverRelaxed(p: Platform, directory: string, roots: seq<string>, cfg: Config, path: Path)
    requires CaseKeepsNames(p) && Checked(p, directory, roots, cfg)
    requires NoDots(path.names) && Within(p, cfg.boundary.value.root, path)
    ensures BoundaryFor(p, cfg, path) == cfg.boundary
  {
    var own := cfg.boundary.value.root;
    hide Validated, Within;
    FirstContainingExactly(p, cfg.allowed, path);
    if !ContainsPath(p, own, path) && InSome(p, cfg.allowed, path) {
      var i :| 0 <= i < |cfg.allowed| && ContainsPath(p, cfg.allowed[i], path);
      AllowedRootsAreChecked(p, directory, roots, cfg, i);
      RootHidesNothing(p, own, cfg.allowed[i], path);
    }
  }

  /** A path found below a clean root is hidden from no directory it lies in. */
  lemma RootHidesNothing(p: Platform, own: Path, root: Path, path: Path)
    requires CaseKeepsNames(p) && NoDots(path.names) && Within(p, own, path)
    requires Cleaned(p, root) && ContainsPath(p, root, path)
    ensures ContainsPath(p, own, path)
  {
    ContainsExactly(p, root, path);
    ContainsExactly(p, own, path);
    ValidIsPlain(p, root.names);
    hide ContainsPath, Within, ValidNames;
    PlainThroughout(p, root, path);
    hide CaseKeepsNames;
    assert Plain(p, path.names[|own.names|..]) by {
      WithinShorter(p, own, path);
    }
  }

  /** What lies in a directory is in the runtime tree exactly when the directory is, if the
      directory lies below a root that was not found to contain the tree. */
  lemma FileWithDirectory(p: Platform, own: Path, root: Path, dir: Path, file: Path)
    requires CaseKeepsNames(p) && NoDots(own.names)
    requires ValidNames(p, dir.names) && ValidNames(p, file.names)
    requires Within(p, dir, file)
    requires ContainsPath(p, root, dir) && !ContainsPath(p, root, own)
    ensures ContainsPath(p, root, file)
    ensures ContainsPath(p, own, dir) <==> ContainsPath(p, own, file)
  {
    ContainsIsWithin(p, own, dir);
    ContainsIsWithin(p, own, file);
    ContainsIsWithin(p, root, dir);
    ContainsIsWithin(p, root, file);
    hide ContainsPath, ValidNames, Within;
    WithinTransitive(p, root, dir, file);
    if Within(p, own, dir) {
      WithinTransitive(p, own, dir, file);
    } else if Within(p, own, file) {
      WithinComparable(p, own, dir, file);
      WithinTransitive(p, root, dir, own);
      PlainAbove(p, own, file);
      ContainsExactly(p, root, own);
      WithinShorter(p, root, own);
    }
  }

  /** A file and the directory it is put in get the same kind of protection. */
  lemma SameKind(p: Platform, directory: string, roots: seq<string>, cfg: Config, dir: Path, name: string)
    requires CaseKeepsNames(p) && ValidNames(p, dir.names) && ValidFilename(p, name)
    ensures Checked(p, directory, roots, cfg) && InSome(p, cfg.allowed, dir) ==>
      var file := Path(dir.volume, dir.names + [name]);
      BoundaryFor(p, cfg, dir).Some? && BoundaryFor(p, cfg, file).Some?
      && BoundaryFor(p, cfg, dir).value.relaxed == BoundaryFor(p, cfg, file).value.relaxed
  {
    if Checked(p, directory, roots, cfg) && InSome(p, cfg.allowed, dir) {
      hide Validated, ContainsPath, ValidFilename, Cleaned, FirstContaining, CaseKeepsNames;
      var file := Path(dir.volume, dir.names + [name]);
      assert ValidNames(p, file.names);
      FirstContainingExactly(p, cfg.allowed, dir);
      FirstContainingExactly(p, cfg.allowed, file);
      var i :| 0 <= i < |cfg.allowed| && ContainsPath(p, cfg.allowed[i], dir);
      AllowedRootsAreChecked(p, directory, roots, cfg, i);
      FileWithDirectory(p, cfg.boundary.value.root, cfg.allowed[i], dir, file);
    }
  }
}
