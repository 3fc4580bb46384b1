/**
 * The permission hardening of profile.go: classifying the mode of a profile
 * file or of its directory, and aggregating the two classifications into
 * the report that is printed before the program continues or exits.
 * `os.Stat` is a parameter: its failure or the mode word it returns.
 */
module Permissions {
  import Paths

  /** Go's `os.FileMode`, a 32-bit word: permission bits low, file-type bits high. */
  type FileMode = bv32

  /** The type bit `os.Stat` sets on a directory (`os.ModeDir`, bit 31). */
  const ModeDir: FileMode := 0x8000_0000

  /** Octal 0700, 0070 and 0007: the owner, group and world permission fields. */
  const UserMask: FileMode := 0x1C0
  const GroupMask: FileMode := 0x38
  const WorldMask: FileMode := 0x7

  /** Octal 0400: the owner's read bit. */
  const UserRead: FileMode := 0x100

  /** What `os.Stat` gave back for a path. */
  datatype StatResult = StatFailed(reason: string) | Stat(mode: FileMode)

  /** One complaint of the permission check; each one names the path it is about. */
  datatype Complaint =
    | CannotStat(path: string, reason: string)
    | NotUserAccessible(path: string)
    | GroupAccessible(path: string)
    | WorldAccessible(path: string)

  /** The position of a complaint in the order the check raises them: user, group, world. */
  function Rank(c: Complaint): nat
  {
    match c
    case CannotStat(_, _) => 0
    case NotUserAccessible(_) => 0
    case GroupAccessible(_) => 1
    case WorldAccessible(_) => 2
  }

  /** Complaints strictly in user, group, world order (so none appears twice). */
  predicate InCheckOrder(cs: seq<Complaint>)
  {
    forall i, j :: 0 <= i < j < |cs| ==> Rank(cs[i]) < Rank(cs[j])
  }

  /**
   * The `(fatal, result)` pair of CheckPermissions; `result` is a
   * multierror, so it is nil exactly when `complaints` is empty.
   */
  datatype Check = Check(fatal: bool, complaints: seq<Complaint>)

  predicate OwnerCanRead(mode: FileMode) { mode & UserRead != 0 }
  predicate GroupHasAccess(mode: FileMode) { mode & GroupMask != 0 }
  predicate WorldHasAccess(mode: FileMode) { mode & WorldMask != 0 }

  /** The owner field `(mode & 0700) >> 6` is at most 3 exactly when the owner read bit is clear. */
  lemma OwnerFieldAtMostThree(mode: FileMode)
    ensures (mode & UserMask) >> 6 <= 3 <==> !OwnerCanRead(mode)
  {
  }

  /** The group field `(mode & 0070) >> 3` is non-zero exactly when a group bit is set. */
  lemma GroupFieldNonZero(mode: FileMode)
    ensures (mode & GroupMask) >> 3 != 0 <==> GroupHasAccess(mode)
  {
  }

  /** One complaint about `path` per condition that holds, in user, group, world order. */
  function Complaints(path: string, user: bool, group: bool, world: bool): (cs: seq<Complaint>)
    ensures cs != [] <==> user || group || world
    ensures NotUserAccessible(path) in cs <==> user
    ensures GroupAccessible(path) in cs <==> group
    ensures WorldAccessible(path) in cs <==> world
    ensures forall c :: c in cs ==> c.path == path && !c.CannotStat?
    ensures InCheckOrder(cs)
  {
    (if user then [NotUserAccessible(path)] else [])
    + (if group then [GroupAccessible(path)] else [])
    + (if world then [WorldAccessible(path)] else [])
  }

  /**
   * CheckPermissions. A failed stat is fatal. Otherwise the check is fatal
   * exactly when the owner cannot read (the owner field is at most 3), and
   * group or world access only adds a warning; each condition that holds
   * adds one complaint about `path`, in the order user, group, world.
   */
  function CheckPermissions(path: string, st: StatResult): (r: Check)
    ensures st.StatFailed? ==> r == Check(true, [CannotStat(path, st.reason)])
    ensures st.Stat? ==> (r.fatal <==> !OwnerCanRead(st.mode))
    ensures st.Stat? ==>
      (r.complaints != [] <==>
        !OwnerCanRead(st.mode) || GroupHasAccess(st.mode) || WorldHasAccess(st.mode))
    ensures st.Stat? ==> (NotUserAccessible(path) in r.complaints <==> !OwnerCanRead(st.mode))
    ensures st.Stat? ==> (GroupAccessible(path) in r.complaints <==> GroupHasAccess(st.mode))
    ensures st.Stat? ==> (WorldAccessible(path) in r.complaints <==> WorldHasAccess(st.mode))
    ensures st.Stat? ==> forall c :: c in r.complaints ==> !c.CannotStat?
    ensures forall c :: c in r.complaints ==> c.path == path
    ensures InCheckOrder(r.complaints)
    ensures r.fatal ==> r.complaints != []
  {
    match st
    case StatFailed(reason) => Check(true, [CannotStat(path, reason)])
    case Stat(mode) =>
      var userFatal := (mode & UserMask) >> 6 <= 3;
      var group := (mode & GroupMask) >> 3 != 0;
      OwnerFieldAtMostThree(mode);
      GroupFieldNonZero(mode);
      assert userFatal == !OwnerCanRead(mode) && group == GroupHasAccess(mode);
      var cs := Complaints(path, userFatal, group, WorldHasAccess(mode));
      Check(userFatal, cs)
  }

  /** Group and world bits never decide whether the check is fatal. */
  lemma FatalIgnoresGroupAndWorld(path: string, mode: FileMode, other: FileMode)
    ensures CheckPermissions(path, Stat(mode)).fatal
        == CheckPermissions(path, Stat((mode & !(GroupMask | WorldMask)) | (other & (GroupMask | WorldMask)))).fatal
  {
  }

  /**
   * The modes a profile is written with pass the check: a directory created
   * with 0700 (whatever type bits stat adds) and a file created with 0600.
   */
  lemma WrittenModesPass(path: string, typeBits: FileMode)
    requires typeBits & 0x1FF == 0
    ensures CheckPermissions(path, Stat(typeBits | 0x1C0)) == Check(false, [])
    ensures CheckPermissions(path, Stat(typeBits | 0x180)) == Check(false, [])
  {
  }

  /** What CheckProfilePermissions does: the line it prints (if any) and whether it exits. */
  datatype Report = Report(prefix: string, printed: seq<Complaint>, exits: bool)

  /**
   * CheckProfilePermissions, as written. The directory of `path` is checked
   * first, then `path` itself. The program exits when either check is fatal,
   * and the prefix says "ERROR" exactly then. Because each error is assigned
   * to `result` instead of appended to it, the printed complaints are the
   * file's when it has any and the directory's otherwise.
   */
  function CheckProfilePermissions(path: string, stat: string -> StatResult): (r: Report)
    ensures var d := CheckPermissions(Paths.Dir(path), stat(Paths.Dir(path)));
            var p := CheckPermissions(path, stat(path));
            && (r.exits <==> d.fatal || p.fatal)
            && (r.prefix == "ERROR" <==> r.exits)
            && (r.prefix == "WARNING" <==> !r.exits)
            && (p.complaints != [] ==> r.printed == p.complaints)
            && (p.complaints == [] ==> r.printed == d.complaints)
    ensures r.exits ==> r.printed != []
  {
    var dir := Paths.Dir(path);
    var d := CheckPermissions(dir, stat(dir));
    var p := CheckPermissions(path, stat(path));
    var result := if p.complaints != [] then p.complaints else d.complaints;
    var fatal := d.fatal || p.fatal;
    Report(if fatal then "ERROR" else "WARNING", result, fatal)
  }

  /**
   * The aggregation the use of a multierror evidently intends: every
   * complaint about the directory and about the file is printed, directory
   * first. Exit and prefix are as in CheckProfilePermissions.
   */
  function CheckProfilePermissionsAccumulated(path: string, stat: string -> StatResult): (r: Report)
    ensures var d := CheckPermissions(Paths.Dir(path), stat(Paths.Dir(path)));
            var p := CheckPermissions(path, stat(path));
            && (forall c :: c in d.complaints || c in p.complaints <==> c in r.printed)
            && |r.printed| == |d.complaints| + |p.complaints|
            && r.printed[..|d.complaints|] == d.complaints
            && r.printed[|d.complaints|..] == p.complaints
            && (r.exits <==> d.fatal || p.fatal)
            && (r.prefix == "ERROR" <==> r.exits)
    ensures r.exits == CheckProfilePermissions(path, stat).exits
    ensures r.prefix == CheckProfilePermissions(path, stat).prefix
    ensures r.printed == [] <==> CheckProfilePermissions(path, stat).printed == []
  {
    var dir := Paths.Dir(path);
    var d := CheckPermissions(dir, stat(dir));
    var p := CheckPermissions(path, stat(path));
    var fatal := d.fatal || p.fatal;
    Report(if fatal then "ERROR" else "WARNING", d.complaints + p.complaints, fatal)
  }

  /**
   * When both the directory and the file draw complaints, the program as
   * written prints none of the directory's, while the accumulated report
   * prints all of them.
   */
  lemma DirectoryComplaintsLost(path: string, stat: string -> StatResult)
    requires Paths.Dir(path) != path
    requires CheckPermissions(Paths.Dir(path), stat(Paths.Dir(path))).complaints != []
    requires CheckPermissions(path, stat(path)).complaints != []
    ensures forall c :: c in CheckPermissions(Paths.Dir(path), stat(Paths.Dir(path))).complaints ==>
      c !in CheckProfilePermissions(path, stat).printed &&
      c in CheckProfilePermissionsAccumulated(path, stat).printed
  {
    var d := CheckPermissions(Paths.Dir(path), stat(Paths.Dir(path)));
    var p := CheckPermissions(path, stat(path));
    forall c | c in d.complaints
      ensures c !in p.complaints
    {
      assert c.path == Paths.Dir(path);
    }
  }

  /** A world-writable directory `cfg` that holds a profile with mode 0644. */
  function ExampleStat(p: string): StatResult
  {
    if p == "cfg" then Stat(ModeDir | 0x1FF) else Stat(0x1A4)
  }

  /** The example profile lies directly in the example directory. */
  lemma ExampleDir()
    ensures Paths.Dir("cfg/lanes.yml") == "cfg"
  {
    Paths.DirOfJoin("cfg", "lanes.yml");
    assert Paths.Join("cfg", "lanes.yml") == "cfg/lanes.yml";
  }

  /** The concrete case of DirectoryComplaintsLost: the directory's complaint is not printed. */
  lemma DirectoryComplaintLostExample()
    ensures WorldAccessible("cfg") !in CheckProfilePermissions("cfg/lanes.yml", ExampleStat).printed
    ensures WorldAccessible("cfg") in CheckProfilePermissionsAccumulated("cfg/lanes.yml", ExampleStat).printed
  {
    var path := "cfg/lanes.yml";
    ExampleDir();
    var d := CheckPermissions("cfg", ExampleStat("cfg"));
    var p := CheckPermissions(path, ExampleStat(path));
    assert WorldAccessible("cfg") in d.complaints;
    assert GroupAccessible(path) in p.complaints;
    DirectoryComplaintsLost(path, ExampleStat);
  }
}
