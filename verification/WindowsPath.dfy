/** Absolute Windows paths as the download code sees them: the text the server sends,
    its cleaned components, and containment computed from a relative path. */
module WindowsPath {
  import opened Common

  /** A cleaned absolute path: a volume and the names below it. */
  datatype Path = Path(volume: string, names: seq<string>)

  /** What Go's path library decides from Unicode and device-name tables. Two names are
      the same word when they fold to the same text. */
  datatype Platform = Platform(
    fold: string -> string,
    reserved: string -> bool,
    uncLength: string -> nat)

  predicate IsSeparator(c: char) {
    c == '\\' || c == '/'
  }

  predicate IsControl(c: char) {
    (c as int) < 0x20 || 0x7f <= (c as int) < 0xa0
  }

  predicate IsLetter(c: char) {
    'A' <= c <= 'Z' || 'a' <= c <= 'z'
  }

  predicate HasControl(s: string) {
    exists i :: 0 <= i < |s| && IsControl(s[i])
  }

  predicate HasAny(s: string, chars: string) {
    exists i :: 0 <= i < |s| && s[i] in chars
  }

  const FORBIDDEN := ":<>\"|?*"

  // ------------------------------------------------------------- local paths

  /** A relative path, given as its names, that stays below where it starts. */
  predicate IsLocal(p: Platform, names: seq<string>) {
    && names != []
    && (forall i :: 0 <= i < |names| ==> ':' !in names[i] && !p.reserved(names[i]))
    && (var clean := CleanRelative(names); clean == [] || clean[0] != "..")
  }

  /** Clean on a relative path: a dot vanishes and two dots undo the name before them. */
  function CleanRelative(names: seq<string>): seq<string> {
    if names == [] then []
    else
      var before := CleanRelative(names[..|names| - 1]);
      var last := names[|names| - 1];
      if last == "." then before
      else if last == ".." && before != [] && before[|before| - 1] != ".." then before[..|before| - 1]
      else before + [last]
  }

  predicate ValidFilename(p: Platform, name: string) {
    && name != ""
    && IsLocal(p, [name])
    && name != "." && name != ".."
    && !HasAny(name, "/\\") && !HasControl(name)
    && !HasAny(name, FORBIDDEN)
    && name[|name| - 1] != '.' && name[|name| - 1] != ' '
  }

  predicate ValidNames(p: Platform, names: seq<string>) {
    forall i :: 0 <= i < |names| ==> ValidFilename(p, names[i])
  }

  // ---------------------------------------------------------- cleaning a text

  /** The pieces between separators, empty ones included. */
  function Split(s: string): (pieces: seq<string>)
    ensures pieces != []
  {
    if s == "" then [""]
    else
      var rest := Split(s[1..]);
      if IsSeparator(s[0]) then [""] + rest else [[s[0]] + rest[0]] + rest[1..]
  }

  function NonEmpty(pieces: seq<string>): seq<string> {
    if pieces == [] then []
    else if pieces[0] == "" then NonEmpty(pieces[1..])
    else [pieces[0]] + NonEmpty(pieces[1..])
  }

  function VolumeLength(p: Platform, s: string): nat {
    if |s| >= 2 && s[1] == ':' then 2
    else if s == "" || !IsSeparator(s[0]) then 0
    else if p.uncLength(s) <= |s| then p.uncLength(s) else |s|
  }

  predicate IsAbsolute(p: Platform, s: string) {
    var n := VolumeLength(p, s);
    && n != 0
    && ((|s| >= 2 && IsSeparator(s[0]) && IsSeparator(s[1])) || (n < |s| && IsSeparator(s[n])))
  }

  function CleanDestination(p: Platform, s: string): Option<Path> {
    if !IsAbsolute(p, s) || s[0] == '\\' || (|s| >= 2 && s[..2] == "//") || HasControl(s) then None
    else
      var volume := s[..VolumeLength(p, s)];
      if |volume| != 2 || volume[1] != ':' || !IsLetter(volume[0]) then None
      else
        var names := NonEmpty(Split(s[2..]));
        if ValidNames(p, names) then Some(Path(volume, names)) else None
  }

  /** The text of a cleaned path. */
  function Text(path: Path): string {
    path.volume + (if path.names == [] then "\\" else Tail(path.names))
  }

  function Tail(names: seq<string>): string {
    if names == [] then "" else "\\" + names[0] + Tail(names[1..])
  }

  /** What every cleaned destination looks like. */
  predicate Cleaned(p: Platform, path: Path) {
    && |path.volume| == 2 && IsLetter(path.volume[0]) && path.volume[1] == ':'
    && ValidNames(p, path.names)
  }

  /** Accepted texts are exactly a drive letter, a colon, a separator, and names that are
      all valid; doubled and trailing separators do not matter. */
  lemma CleanDestinationExactly(p: Platform, s: string)
    ensures CleanDestination(p, s).Some? <==>
      && |s| >= 3 && IsLetter(s[0]) && s[1] == ':' && IsSeparator(s[2])
      && !HasControl(s) && ValidNames(p, NonEmpty(Split(s[2..])))
    ensures CleanDestination(p, s).Some? ==> Cleaned(p, CleanDestination(p, s).value)
  {
    hide ValidNames, HasControl, Split, NonEmpty;
  }

  lemma {:induction false} SplitName(name: string, rest: string)
    requires !HasAny(name, "/\\")
    ensures Split(name + rest) == [name + Split(rest)[0]] + Split(rest)[1..]
  {
    if name == "" {
      assert name + rest == rest;
      assert "" + Split(rest)[0] == Split(rest)[0];
    } else {
      var s := name + rest;
      assert name[0] !in "/\\";
      assert forall i :: 0 <= i < |name[1..]| ==> name[1..][i] == name[i + 1];
      SplitName(name[1..], rest);
      assert s[1..] == name[1..] + rest;
      assert [name[0]] + (name[1..] + Split(rest)[0]) == name + Split(rest)[0];
    }
  }

  lemma {:induction false} SplitTail(p: Platform, names: seq<string>)
    requires ValidNames(p, names)
    ensures Split(Tail(names)) == [""] + names
  {
    if names == [] {
      assert Split("") == [""];
    } else {
      hide Split, ValidFilename;
      assert ValidFilename(p, names[0]);
      RestValid(p, names);
      SplitTail(p, names[1..]);
      SplitFirst(p, names[0], Tail(names[1..]), names[1..]);
      assert [names[0]] + names[1..] == names;
    }
  }

  lemma RestValid(p: Platform, names: seq<string>)
    requires names != [] && ValidNames(p, names)
    ensures ValidNames(p, names[1..])
  {
    hide ValidFilename;
    forall i | 0 <= i < |names[1..]| ensures ValidFilename(p, names[1..][i]) {
      assert ValidFilename(p, names[i + 1]);
    }
  }

  /** A separator and a name in front of a text add one piece. */
  lemma SplitFirst(p: Platform, name: string, rest: string, pieces: seq<string>)
    requires ValidFilename(p, name) && Split(rest) == [""] + pieces
    ensures Split("\\" + name + rest) == [""] + ([name] + pieces)
  {
    SplitName(name, rest);
    var s := "\\" + name + rest;
    assert s[0] == '\\' && s[1..] == name + rest;
    assert name + "" == name;
    assert ([""] + pieces)[1..] == pieces;
  }

  lemma {:induction false} NonEmptyKeeps(p: Platform, names: seq<string>)
    requires ValidNames(p, names)
    ensures NonEmpty(names) == names
  {
    if names != [] {
      assert ValidFilename(p, names[0]);
      RestValid(p, names);
      NonEmptyKeeps(p, names[1..]);
      assert names == [names[0]] + names[1..];
    }
  }

  lemma {:induction false} TailHasNoControl(p: Platform, names: seq<string>)
    requires ValidNames(p, names)
    ensures !HasControl(Tail(names))
  {
    if names != [] {
      assert ValidFilename(p, names[0]);
      RestValid(p, names);
      TailHasNoControl(p, names[1..]);
      hide ValidFilename;
      assert !IsControl('\\');
      ConcatHasNoControl("\\", names[0]);
      ConcatHasNoControl("\\" + names[0], Tail(names[1..]));
    }
  }

  lemma ConcatHasNoControl(a: string, b: string)
    requires !HasControl(a) && !HasControl(b)
    ensures !HasControl(a + b)
  {
    forall i | 0 <= i < |a + b| ensures !IsControl((a + b)[i]) {
      if i < |a| {
        assert (a + b)[i] == a[i];
      } else {
        assert (a + b)[i] == b[i - |a|];
      }
    }
  }

  /** Cleaning is canonical: the text of a cleaned path cleans to the same path. */
  lemma CleanDestinationIdempotent(p: Platform, path: Path)
    requires Cleaned(p, path)
    ensures CleanDestination(p, Text(path)) == Some(path)
  {
    var s := Text(path);
    SplitTail(p, path.names);
    NonEmptyKeeps(p, path.names);
    TailHasNoControl(p, path.names);
    assert !HasControl("\\") && !HasControl(path.volume);
    ConcatHasNoControl(path.volume, s[2..]);
    TailStartsWithSeparator(path.names);
    CleanDestinationExactly(p, s);
    SplitSeparator();
    hide Split, HasControl, ValidNames;
    assert s[..2] == path.volume;
    if path.names == [] {
      assert s[2..] == "\\";
    } else {
      assert s[2..] == Tail(path.names);
      assert ([""] + path.names)[1..] == path.names;
    }
  }

  lemma TailStartsWithSeparator(names: seq<string>)
    ensures names != [] ==> |Tail(names)| > 0 && Tail(names)[0] == '\\'
  {}

  lemma SplitSeparator()
    ensures Split("\\") == ["", ""]
  {
    assert "\\"[1..] == "";
    assert Split("") == [""];
  }

  // --------------------------------------------------------------- containment

  predicate SameWord(p: Platform, a: string, b: string) {
    p.fold(a) == p.fold(b)
  }

  /** How many leading names two lists share. */
  function Shared(p: Platform, base: seq<string>, target: seq<string>): (k: nat)
    ensures k <= |base| && k <= |target|
  {
    if base == [] || target == [] || !SameWord(p, base[0], target[0]) then 0
    else 1 + Shared(p, base[1..], target[1..])
  }

  function Repeat(word: string, n: nat): seq<string> {
    if n == 0 then [] else [word] + Repeat(word, n - 1)
  }

  /** The names that lead from one directory to another; no names stand for the dot. */
  function Rel(p: Platform, base: Path, target: Path): Option<seq<string>> {
    if !SameWord(p, base.volume, target.volume) then None
    else
      var k := Shared(p, base.names, target.names);
      Some(Repeat("..", |base.names| - k) + target.names[k..])
  }

  predicate ContainsPath(p: Platform, root: Path, path: Path) {
    var rel := Rel(p, root, path);
    rel.Some? && (rel.value == [] || IsLocal(p, rel.value))
  }

  /** The names of one path start those of another: what containment is meant to be. */
  predicate Within(p: Platform, root: Path, path: Path) {
    && SameWord(p, root.volume, path.volume)
    && |root.names| <= |path.names|
    && forall i :: 0 <= i < |root.names| ==> SameWord(p, root.names[i], path.names[i])
  }

  /** No name is a dot or two dots: the shape of a cleaned absolute path. */
  predicate NoDots(names: seq<string>) {
    forall i :: 0 <= i < |names| ==> names[i] != "." && names[i] != ".."
  }

  /** Names that IsLocal lets through. */
  predicate Plain(p: Platform, names: seq<string>) {
    forall i :: 0 <= i < |names| ==> ':' !in names[i] && !p.reserved(names[i])
  }

  lemma {:induction false} SharedExactly(p: Platform, base: seq<string>, target: seq<string>)
    ensures
      var k := Shared(p, base, target);
      && (forall i :: 0 <= i < k ==> SameWord(p, base[i], target[i]))
      && (k < |base| && k < |target| ==> !SameWord(p, base[k], target[k]))
  {
    if base != [] && target != [] && SameWord(p, base[0], target[0]) {
      SharedExactly(p, base[1..], target[1..]);
      var k := Shared(p, base, target);
      forall i | 0 <= i < k ensures SameWord(p, base[i], target[i]) {
        if i > 0 {
          assert SameWord(p, base[1..][i - 1], target[1..][i - 1]);
        }
      }
    }
  }

  lemma {:induction false} CleanKeepsNoDots(names: seq<string>)
    requires NoDots(names)
    ensures CleanRelative(names) == names
  {
    if names != [] {
      CleanKeepsNoDots(names[..|names| - 1]);
      assert names == names[..|names| - 1] + [names[|names| - 1]];
    }
  }

  /** Going up first never becomes local by going down afterwards. */
  lemma {:induction false} UpStaysUp(n: nat, names: seq<string>)
    requires n > 0 && NoDots(names)
    ensures
      var clean := CleanRelative(Repeat("..", n) + names);
      clean == Repeat("..", n) + names && clean[0] == ".."
  {
    var all := Repeat("..", n) + names;
    if names != [] {
      var init := names[..|names| - 1];
      UpStaysUp(n, init);
      assert all[..|all| - 1] == Repeat("..", n) + init;
      assert names == init + [names[|names| - 1]];
    } else {
      assert all == Repeat("..", n);
      OnlyUp(n);
    }
  }

  lemma {:induction false} OnlyUp(n: nat)
    ensures |Repeat("..", n)| == n && forall i :: 0 <= i < n ==> Repeat("..", n)[i] == ".."
    ensures CleanRelative(Repeat("..", n)) == Repeat("..", n)
  {
    RepeatAll("..", n);
    if n > 0 {
      OnlyUp(n - 1);
      var all := Repeat("..", n);
      RepeatAll("..", n - 1);
      assert all[..n - 1] == Repeat("..", n - 1);
      assert all == Repeat("..", n - 1) + [".."];
    }
  }

  lemma {:induction false} RepeatAll(word: string, n: nat)
    ensures |Repeat(word, n)| == n && forall i :: 0 <= i < n ==> Repeat(word, n)[i] == word
  {
    if n > 0 {
      RepeatAll(word, n - 1);
    }
  }

  /** Containment computed from the relative path is containment of names, except that a
      device name or a colon below the root hides what lies there. */
  lemma ContainsExactly(p: Platform, root: Path, path: Path)
    requires NoDots(path.names)
    ensures ContainsPath(p, root, path) <==>
      Within(p, root, path) && Plain(p, path.names[|root.names|..])
  {
    if Shared(p, root.names, path.names) < |root.names| {
      NotWithin(p, root, path);
      ClimbsOut(p, root, path);
    } else {
      StaysIn(p, root, path);
    }
  }

  lemma ClimbsOut(p: Platform, root: Path, path: Path)
    requires NoDots(path.names) && Shared(p, root.names, path.names) < |root.names|
    ensures !ContainsPath(p, root, path)
  {
    hide CleanRelative, Shared, Repeat, IsLocal, NoDots;
    var k := Shared(p, root.names, path.names);
    NoDotsBelow(path.names, k);
    RepeatAll("..", |root.names| - k);
    UpStaysUp(|root.names| - k, path.names[k..]);
    NotLocal(p, Repeat("..", |root.names| - k) + path.names[k..]);
  }

  lemma NoDotsBelow(names: seq<string>, k: nat)
    requires NoDots(names) && k <= |names|
    ensures NoDots(names[k..])
  {}

  lemma NotLocal(p: Platform, names: seq<string>)
    requires CleanRelative(names) == names && names != [] && names[0] == ".."
    ensures !IsLocal(p, names)
  {}

  lemma StaysIn(p: Platform, root: Path, path: Path)
    requires NoDots(path.names) && Shared(p, root.names, path.names) == |root.names|
    ensures ContainsPath(p, root, path) <==>
      Within(p, root, path) && Plain(p, path.names[|root.names|..])
  {
    SharedExactly(p, root.names, path.names);
    var rest := path.names[|root.names|..];
    CleanKeepsNoDots(rest);
    hide CleanRelative, Shared;
    assert Repeat("..", 0) + rest == rest;
    assert rest == [] || rest[0] != "..";
    assert IsLocal(p, rest) <==> rest != [] && Plain(p, rest);
  }

  lemma NotWithin(p: Platform, root: Path, path: Path)
    requires Shared(p, root.names, path.names) < |root.names|
    ensures !Within(p, root, path)
  {
    SharedExactly(p, root.names, path.names);
  }

  lemma ValidIsPlain(p: Platform, names: seq<string>)
    requires ValidNames(p, names)
    ensures Plain(p, names) && NoDots(names)
  {
    forall i | 0 <= i < |names|
      ensures ':' !in names[i] && !p.reserved(names[i]) && names[i] != "." && names[i] != ".."
    {
      assert ValidFilename(p, names[i]);
      assert [names[i]][0] == names[i];
    }
  }

  /** For validated paths the two notions agree. */
  lemma ContainsIsWithin(p: Platform, root: Path, path: Path)
    requires ValidNames(p, path.names)
    ensures ContainsPath(p, root, path) <==> Within(p, root, path)
  {
    ValidIsPlain(p, path.names);
    ContainsExactly(p, root, path);
  }

  lemma WithinTransitive(p: Platform, a: Path, b: Path, c: Path)
    requires Within(p, a, b) && Within(p, b, c)
    ensures Within(p, a, c)
  {}

  /** Two directories that both contain a path are one inside the other. */
  lemma WithinComparable(p: Platform, a: Path, b: Path, c: Path)
    requires Within(p, a, c) && Within(p, b, c)
    ensures Within(p, a, b) || Within(p, b, a)
  {}
}
