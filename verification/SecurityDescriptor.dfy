/** Classification of a security descriptor, the looser validation used at other
    places, and the canonical access list a repair writes. */
module SecurityDescriptor {
  import opened Common

  datatype Sid = LocalSystem | Administrators | Foreign(id: nat)

  predicate Trusted(sid: Sid) { !sid.Foreign? }

  const ACCESS_ALLOWED := 0
  const OBJECT_INHERIT: bv8 := 0x01
  const CONTAINER_INHERIT: bv8 := 0x02
  const INHERIT_ONLY: bv8 := 0x08
  const INHERITED: bv8 := 0x10
  const FULL_CONTROL: bv32 := 0x001F_01FF

  /** An entry as the system returns it; the booleans are its structural checks. */
  datatype Ace = Ace(
    readable: bool,
    kind: nat,
    flags: bv8,
    mask: bv32,
    size: nat,
    sidValid: bool,
    sidLength: nat,
    sid: Sid)

  datatype Descriptor = Descriptor(
    valid: bool,
    owner: Option<Sid>,
    ownerValid: bool,
    controlReadable: bool,
    daclPresent: bool,
    daclProtected: bool,
    dacl: Option<seq<Ace>>)

  datatype Class = Canonical | Repairable | Unsafe

  datatype Reason =
    | DescriptorUnreadable
    | UntrustedOwner
    | UntrustedAce
    | InheritanceDrift
    | MissingSystem
    | MissingAdmin
    | NoncanonicalAces
    | AclCanonical
    | Structural(what: string)

  datatype Assessment = Assessment(
    class_: Class,
    owner: Option<Sid>,
    principal: Option<Sid>,
    mask: bv32,
    reasons: seq<Reason>)

  function UnsafeAssessment(reason: Reason): Assessment {
    Assessment(Unsafe, None, None, 0, [reason])
  }

  function WantedFlags(directory: bool): bv8 {
    if directory then OBJECT_INHERIT | CONTAINER_INHERIT else 0
  }

  predicate Malformed(ace: Ace) {
    || !ace.readable || ace.kind != ACCESS_ALLOWED || ace.size < 16
    || !ace.sidValid || ace.sidLength + 8 > ace.size
  }

  predicate FlagsRight(ace: Ace, directory: bool, root: bool) {
    ace.flags & !INHERITED == WantedFlags(directory) && (root ==> ace.flags & INHERITED == 0)
  }

  /** A full-control entry for `sid`, however it was inherited. */
  predicate Grants(ace: Ace, sid: Sid, directory: bool) {
    ace.sid == sid && ace.mask == FULL_CONTROL && ace.flags & !INHERITED == WantedFlags(directory)
  }

  predicate Suspicious(ace: Ace) {
    Malformed(ace) || !Trusted(ace.sid)
  }

  /** The first entry that makes the list unsafe, or the length of the list. */
  function FirstSuspicious(aces: seq<Ace>): (k: nat)
    ensures k <= |aces|
    ensures forall i :: 0 <= i < k ==> !Suspicious(aces[i])
    ensures k < |aces| ==> Suspicious(aces[k])
  {
    if aces == [] then 0
    else if Suspicious(aces[0]) then 0
    else 1 + FirstSuspicious(aces[1..])
  }

  /** What is wrong with a list that holds only trusted entries. */
  function Drift(aces: seq<Ace>, protected_: bool, directory: bool, root: bool): seq<Reason> {
    (if (root && !protected_) || exists i :: 0 <= i < |aces| && !FlagsRight(aces[i], directory, root)
     then [InheritanceDrift] else [])
    + (if exists i :: 0 <= i < |aces| && Grants(aces[i], LocalSystem, directory) then [] else [MissingSystem])
    + (if exists i :: 0 <= i < |aces| && Grants(aces[i], Administrators, directory) then [] else [MissingAdmin])
    + (if |aces| != 2 then [NoncanonicalAces] else [])
  }

  /** What the classification of a descriptor means. */
  function Classify(sd: Option<Descriptor>, directory: bool, root: bool): Assessment {
    if sd.None? || !sd.value.valid then UnsafeAssessment(DescriptorUnreadable) else
    var d := sd.value;
    if d.owner.None? || !d.ownerValid then UnsafeAssessment(DescriptorUnreadable)
    else if !Trusted(d.owner.value) then Assessment(Unsafe, d.owner, None, 0, [UntrustedOwner])
    else if !d.controlReadable || d.dacl.None? || !d.daclPresent
    then Assessment(Unsafe, d.owner, None, 0, [DescriptorUnreadable])
    else
      var aces := d.dacl.value;
      var k := FirstSuspicious(aces);
      if k < |aces| then
        if Malformed(aces[k]) then Assessment(Unsafe, d.owner, None, 0, [DescriptorUnreadable])
        else Assessment(Unsafe, d.owner, Some(aces[k].sid), aces[k].mask, [UntrustedAce])
      else
        var drift := Drift(aces, d.daclProtected, directory, root);
        if drift == [] then Assessment(Canonical, d.owner, None, 0, [AclCanonical])
        else Assessment(Repairable, d.owner, None, 0, drift)
  }

  lemma FirstSuspiciousIs(aces: seq<Ace>, k: nat)
    requires k <= |aces|
    requires forall i :: 0 <= i < k ==> !Suspicious(aces[i])
    requires k < |aces| ==> Suspicious(aces[k])
    ensures FirstSuspicious(aces) == k
  {}

  /** The classification of a readable descriptor once its first k entries are known to
      be fine and the next one, if any, is not. */
  lemma ClassifyScanned(d: Descriptor, directory: bool, root: bool, k: nat)
    requires d.valid && d.owner.Some? && d.ownerValid && Trusted(d.owner.value)
    requires d.controlReadable && d.dacl.Some? && d.daclPresent && k <= |d.dacl.value|
    requires forall i :: 0 <= i < k ==> !Suspicious(d.dacl.value[i])
    requires k < |d.dacl.value| ==> Suspicious(d.dacl.value[k])
    ensures
      var aces := d.dacl.value;
      var drift := Drift(aces, d.daclProtected, directory, root);
      Classify(Some(d), directory, root) ==
        if k < |aces| then
          if Malformed(aces[k]) then Assessment(Unsafe, d.owner, None, 0, [DescriptorUnreadable])
          else Assessment(Unsafe, d.owner, Some(aces[k].sid), aces[k].mask, [UntrustedAce])
        else if drift == [] then Assessment(Canonical, d.owner, None, 0, [AclCanonical])
        else Assessment(Repairable, d.owner, None, 0, drift)
  {
    hide Malformed, Trusted, Drift, FirstSuspicious;
    FirstSuspiciousIs(d.dacl.value, k);
  }

  lemma DriftIs(aces: seq<Ace>, protected_: bool, directory: bool, root: bool,
                flagsOK: bool, system: bool, admins: bool)
    requires flagsOK <==> forall j :: 0 <= j < |aces| ==> FlagsRight(aces[j], directory, root)
    requires system <==> exists j :: 0 <= j < |aces| && Grants(aces[j], LocalSystem, directory)
    requires admins <==> exists j :: 0 <= j < |aces| && Grants(aces[j], Administrators, directory)
    ensures
      var inherited := if (root && !protected_) || !flagsOK then [] + [InheritanceDrift] else [];
      var sys := if !system then inherited + [MissingSystem] else inherited;
      var adm := if !admins then sys + [MissingAdmin] else sys;
      Drift(aces, protected_, directory, root) == if |aces| != 2 then adm + [NoncanonicalAces] else adm
  {
    hide FlagsRight, Grants;
  }

  method ClassifyDescriptor(sd: Option<Descriptor>, directory: bool, root: bool) returns (a: Assessment)
    ensures a == Classify(sd, directory, root)
  {
    var bad := UnsafeAssessment(DescriptorUnreadable);
    if sd.None? || !sd.value.valid {
      return bad;
    }
    var d := sd.value;
    if d.owner.None? || !d.ownerValid {
      return bad;
    }
    bad := bad.(owner := d.owner);
    if !Trusted(d.owner.value) {
      return bad.(reasons := [UntrustedOwner]);
    }
    if !d.controlReadable || d.dacl.None? || !d.daclPresent {
      return bad;
    }
    var aces := d.dacl.value;
    hide Malformed, FlagsRight, Grants, Trusted, Drift, Classify;
    var system, admins, flagsOK := false, false, true;
    for i := 0 to |aces|
      invariant forall j :: 0 <= j < i ==> !Suspicious(aces[j])
      invariant flagsOK <==> forall j :: 0 <= j < i ==> FlagsRight(aces[j], directory, root)
      invariant system <==> exists j :: 0 <= j < i && Grants(aces[j], LocalSystem, directory)
      invariant admins <==> exists j :: 0 <= j < i && Grants(aces[j], Administrators, directory)
    {
      var ace := aces[i];
      assert Suspicious(aces[i]) <==> Malformed(ace) || !Trusted(ace.sid);
      if Malformed(ace) {
        ClassifyScanned(d, directory, root, i);
        return bad;
      }
      if !Trusted(ace.sid) {
        ClassifyScanned(d, directory, root, i);
        return bad.(reasons := [UntrustedAce], principal := Some(ace.sid), mask := ace.mask);
      }
      flagsOK := flagsOK && FlagsRight(ace, directory, root);
      system := system || Grants(ace, LocalSystem, directory);
      admins := admins || Grants(ace, Administrators, directory);
    }
    ClassifyScanned(d, directory, root, |aces|);
    DriftIs(aces, d.daclProtected, directory, root, flagsOK, system, admins);
    var reasons := [];
    if (root && !d.daclProtected) || !flagsOK {
      reasons := reasons + [InheritanceDrift];
    }
    if !system {
      reasons := reasons + [MissingSystem];
    }
    if !admins {
      reasons := reasons + [MissingAdmin];
    }
    if |aces| != 2 {
      reasons := reasons + [NoncanonicalAces];
    }
    if reasons != [] {
      a := Assessment(Repairable, d.owner, None, 0, reasons);
    } else {
      a := Assessment(Canonical, d.owner, None, 0, [AclCanonical]);
    }
  }

  // ------------------------------------------------------------- the looser check

  predicate Effective(ace: Ace, sid: Sid, directory: bool) {
    && ace.flags & INHERIT_ONLY == 0
    && ace.mask & FULL_CONTROL == FULL_CONTROL
    && (directory ==> ace.flags & 0x03 == 0x03)
    && ace.sid == sid
  }

  /** What validation accepts. */
  predicate Valid(d: Descriptor, directory: bool) {
    && d.owner.Some? && Trusted(d.owner.value)
    && d.dacl.Some?
    && (var aces := d.dacl.value;
        && (forall i :: 0 <= i < |aces| ==> aces[i].readable && aces[i].kind == ACCESS_ALLOWED && Trusted(aces[i].sid))
        && (exists i :: 0 <= i < |aces| && Effective(aces[i], LocalSystem, directory))
        && (exists i :: 0 <= i < |aces| && Effective(aces[i], Administrators, directory)))
  }

  method ValidateDescriptor(d: Descriptor, directory: bool) returns (ok: bool)
    ensures ok == Valid(d, directory)
  {
    if d.owner.None? || !Trusted(d.owner.value) || d.dacl.None? {
      return false;
    }
    var aces := d.dacl.value;
    hide Effective, Trusted;
    var system, admins := false, false;
    for i := 0 to |aces|
      invariant forall j :: 0 <= j < i ==> aces[j].readable && aces[j].kind == ACCESS_ALLOWED && Trusted(aces[j].sid)
      invariant system <==> exists j :: 0 <= j < i && Effective(aces[j], LocalSystem, directory)
      invariant admins <==> exists j :: 0 <= j < i && Effective(aces[j], Administrators, directory)
    {
      var ace := aces[i];
      if !ace.readable || ace.kind != ACCESS_ALLOWED || !Trusted(ace.sid) {
        return false;
      }
      system := system || Effective(ace, LocalSystem, directory);
      admins := admins || Effective(ace, Administrators, directory);
    }
    ok := system && admins;
  }

  // ------------------------------------------------------------------- theorems

  /** What the system only ever returns: a present list with readable entries. */
  predicate WellFormed(d: Descriptor) {
    && d.valid && d.ownerValid && d.controlReadable
    && (d.dacl.Some? ==> d.daclPresent)
    && (d.dacl.Some? ==> forall i :: 0 <= i < |d.dacl.value| ==>
          var ace := d.dacl.value[i];
          ace.readable && ace.size >= 16 && ace.sidValid && ace.sidLength + 8 <= ace.size)
  }

  predicate IsCanonicalAce(ace: Ace, sid: Sid, directory: bool, root: bool) {
    && ace.kind == ACCESS_ALLOWED && ace.sid == sid && ace.mask == FULL_CONTROL
    && FlagsRight(ace, directory, root)
  }

  /** The profile: a trusted owner, and exactly one full-control entry for SYSTEM
      and one for Administrators, in either order. */
  predicate IsCanonical(d: Descriptor, directory: bool, root: bool) {
    && d.owner.Some? && Trusted(d.owner.value)
    && (root ==> d.daclProtected)
    && d.dacl.Some? && |d.dacl.value| == 2
    && (var a, b := d.dacl.value[0], d.dacl.value[1];
        || (IsCanonicalAce(a, LocalSystem, directory, root) && IsCanonicalAce(b, Administrators, directory, root))
        || (IsCanonicalAce(a, Administrators, directory, root) && IsCanonicalAce(b, LocalSystem, directory, root)))
  }

  lemma ProfileIsCanonical(d: Descriptor, directory: bool, root: bool)
    requires WellFormed(d) && IsCanonical(d, directory, root)
    ensures Classify(Some(d), directory, root).class_ == Canonical
  {
    var aces := d.dacl.value;
    FirstSuspiciousIs(aces, 2);
    assert Grants(aces[0], LocalSystem, directory) || Grants(aces[1], LocalSystem, directory);
    assert Grants(aces[0], Administrators, directory) || Grants(aces[1], Administrators, directory);
  }

  lemma CanonicalIsProfile(d: Descriptor, directory: bool, root: bool)
    requires Classify(Some(d), directory, root).class_ == Canonical
    ensures IsCanonical(d, directory, root)
  {
    var aces := d.dacl.value;
    assert Drift(aces, d.daclProtected, directory, root) == [];
    var i :| 0 <= i < 2 && Grants(aces[i], LocalSystem, directory);
    var j :| 0 <= j < 2 && Grants(aces[j], Administrators, directory);
    assert FlagsRight(aces[i], directory, root) && FlagsRight(aces[j], directory, root);
    assert !Suspicious(aces[i]) && !Suspicious(aces[j]);
  }

  /** Canonical is exactly the profile. */
  lemma CanonicalExactly(d: Descriptor, directory: bool, root: bool)
    requires WellFormed(d)
    ensures Classify(Some(d), directory, root).class_ == Canonical <==> IsCanonical(d, directory, root)
  {
    hide Classify, IsCanonical;
    if IsCanonical(d, directory, root) {
      ProfileIsCanonical(d, directory, root);
    }
    if Classify(Some(d), directory, root).class_ == Canonical {
      CanonicalIsProfile(d, directory, root);
    }
  }

  /** Unsafe is exactly an untrusted owner, no list, or a list with an entry that
      is not a plain allow entry or names anyone else. */
  lemma UnsafeExactly(d: Descriptor, directory: bool, root: bool)
    requires WellFormed(d)
    ensures Classify(Some(d), directory, root).class_ == Unsafe <==>
              || d.owner.None? || !Trusted(d.owner.value)
              || d.dacl.None?
              || exists i :: 0 <= i < |d.dacl.value| && Suspicious(d.dacl.value[i])
  {
    if d.dacl.Some? {
      var k := FirstSuspicious(d.dacl.value);
      if k < |d.dacl.value| {
        assert Suspicious(d.dacl.value[k]);
      }
    }
  }

  /** The sandwich: canonical descriptors pass validation, and what passes
      validation is never unsafe. */
  lemma ValidationSandwich(d: Descriptor, directory: bool, root: bool)
    requires WellFormed(d)
    ensures Classify(Some(d), directory, root).class_ == Canonical ==> Valid(d, directory)
    ensures Valid(d, directory) ==> Classify(Some(d), directory, root).class_ != Unsafe
  {
    CanonicalExactly(d, directory, root);
    UnsafeExactly(d, directory, root);
    hide Classify;
    if IsCanonical(d, directory, root) {
      var aces := d.dacl.value;
      forall i | 0 <= i < 2 ensures Effective(aces[i], aces[i].sid, directory) {
        CanonicalFlags(aces[i].flags, directory);
      }
      if aces[0].sid == LocalSystem {
        assert Effective(aces[0], LocalSystem, directory) && Effective(aces[1], Administrators, directory);
      } else {
        assert Effective(aces[1], LocalSystem, directory) && Effective(aces[0], Administrators, directory);
      }
    }
  }

  lemma CanonicalFlags(flags: bv8, directory: bool)
    requires flags & !INHERITED == WantedFlags(directory)
    ensures flags & INHERIT_ONLY == 0
    ensures directory ==> flags & 0x03 == 0x03
  {
    assert flags & 0xEF == flags & !INHERITED;
    assert (flags & 0xEF) & 0x08 == flags & 0x08;
    assert (flags & 0xEF) & 0x03 == flags & 0x03;
  }

  function CanonicalAce(sid: Sid, directory: bool): Ace {
    Ace(true, ACCESS_ALLOWED, WantedFlags(directory), FULL_CONTROL, 28, true, 16, sid)
  }

  /** What a repair leaves: the owner kept, the list replaced and protected. */
  function Repaired(d: Descriptor, directory: bool): Descriptor {
    d.(daclPresent := true,
       daclProtected := true,
       dacl := Some([CanonicalAce(LocalSystem, directory), CanonicalAce(Administrators, directory)]))
  }

  /** Repairing any descriptor with a trusted owner makes it canonical. */
  lemma RepairIsCanonical(d: Descriptor, directory: bool, root: bool)
    requires d.valid && d.ownerValid && d.controlReadable
    requires d.owner.Some? && Trusted(d.owner.value)
    ensures Classify(Some(Repaired(d, directory)), directory, root).class_ == Canonical
  {
    var r := Repaired(d, directory);
    assert WantedFlags(directory) & !INHERITED == WantedFlags(directory);
    assert WantedFlags(directory) & INHERITED == 0;
    CanonicalExactly(r, directory, root);
  }
}
