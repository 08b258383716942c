/** Planning the public binary archive of one project (`make_archive`). */
module Archives {
  import opened Wrappers
  import opened Strings
  import opened Paths

  /** The binaries each tool project installs, in archive order. */
  const BINARIES: map<string, seq<string>> := map[
    "kiwix-tools" := ["kiwix-install", "kiwix-manage", "kiwix-read", "kiwix-search", "kiwix-serve"],
    "zim-tools" := ["zimbench", "zimdump", "zimsearch", "zimdiff", "zimpatch", "zimsplit"],
    "zimwriterfs" := ["zimwriterfs"]
  ]

  datatype Container = Zip | TarGz

  /** One archive member: the installed file it is read from and its name inside the archive. */
  datatype Entry = Entry(source: Path, arcname: string)

  datatype ArchivePlan = ArchivePlan(
    dir: Path,          // the directory the archive is written to
    name: string,       // the archive's base name
    container: Container,
    file: Path,         // the archive file
    entries: seq<Entry>)

  /** The process-wide values `make_archive` reads: the home directory, the
      CI platform (which fixes the build directory), the release flag, the
      date of the run and the main project versions table. */
  datatype Context = Context(
    home: Path,
    buildPlatform: string,
    release: bool,
    today: string,
    versions: map<string, string>)

  /** The "kiwix" family of projects; every other project is of the "zim" family. */
  predicate IsKiwixProject(project: string) {
    project == "kiwix-lib" || project == "kiwix-tools"
  }

  function ReleaseRoot(home: Path, project: string): Path {
    if IsKiwixProject(project) then ReleaseKiwixArchivesDir(home) else ReleaseZimArchivesDir(home)
  }

  function BinDir(ctx: Context): Path {
    Join(Join(BaseDir(ctx.home, ctx.buildPlatform), "INSTALL"), "bin")
  }

  function ArchiveName(project: string, platform: string, postfix: string): string {
    project + "_" + platform + "-" + postfix
  }

  function Extension(c: Container): string {
    match c
    case Zip => ".zip"
    case TarGz => ".tar.gz"
  }

  /** The installed file name of a binary: Windows binaries carry `.exe`. */
  function LocalName(platform: string, binary: string): string {
    if platform == "win32" then binary + ".exe" else binary
  }

  function MakeArchive(ctx: Context, project: string, platform: string): (r: Result<ArchivePlan, KeyError>)
    ensures r.Err? <==> project !in BINARIES || (ctx.release && project !in ctx.versions)
    ensures project !in BINARIES ==> r == Err(KeyError("BINARIES", project))
    ensures project in BINARIES && r.Err? ==> r.error == KeyError("main_project_versions", project)
  {
    if project !in BINARIES then Err(KeyError("BINARIES", project))
    else if ctx.release && project !in ctx.versions then Err(KeyError("main_project_versions", project))
    else
      var postfix := if ctx.release then ctx.versions[project] else ctx.today;
      var dir := if ctx.release then Join(ReleaseRoot(ctx.home, project), project) else NightlyArchivesDir(ctx.home);
      var name := ArchiveName(project, platform, postfix);
      var binaries := BINARIES[project];
      var files := seq(|binaries|, i requires 0 <= i < |binaries| => LocalName(platform, binaries[i]));
      var container := if platform == "win32" then Zip else TarGz;
      var entries := seq(|files|, i requires 0 <= i < |files| =>
        Entry(Join(BinDir(ctx), files[i]), if platform == "win32" then files[i] else name + "/" + files[i]));
      Ok(ArchivePlan(dir, name, container, Join(dir, name + Extension(container)), entries))
  }

  /** The binary an archive member holds, read back from its member name. */
  function EntryBinary(plan: ArchivePlan, arcname: string): Option<string> {
    match plan.container
    case Zip =>
      if EndsWith(arcname, ".exe") then Some(arcname[..|arcname| - 4]) else None
    case TarGz =>
      if StartsWith(arcname, plan.name + "/") then Some(arcname[|plan.name| + 1..]) else None
  }

  /** The archive is named `{project}_{platform}-{postfix}` plus the container's
      extension, the postfix being the project's version for a release and
      the date otherwise; Windows gets a zip, every other platform a tarball. */
  lemma ArchiveNaming(ctx: Context, project: string, platform: string)
    requires MakeArchive(ctx, project, platform).Ok?
    ensures var plan := MakeArchive(ctx, project, platform).value;
      && plan.name == project + "_" + platform + "-" + (if ctx.release then ctx.versions[project] else ctx.today)
      && plan.container == (if platform == "win32" then Zip else TarGz)
      && plan.file == Join(plan.dir, plan.name + (if platform == "win32" then ".zip" else ".tar.gz"))
  {
  }

  /** A release archive goes to its family's release directory, under a
      directory named after the project, and never to the nightly directory;
      a nightly archive goes to the nightly directory and never to a release one. */
  lemma ArchiveDestination(ctx: Context, project: string, platform: string)
    requires MakeArchive(ctx, project, platform).Ok?
    ensures var plan := MakeArchive(ctx, project, platform).value;
      if ctx.release then
        && plan.dir == Join(if IsKiwixProject(project) then ReleaseKiwixArchivesDir(ctx.home)
                            else ReleaseZimArchivesDir(ctx.home), project)
        && IsUnder(plan.file, ReleaseRoot(ctx.home, project))
        && !IsUnder(plan.file, NightlyArchivesDir(ctx.home))
      else
        && plan.dir == NightlyArchivesDir(ctx.home)
        && !IsUnder(plan.file, ReleaseKiwixArchivesDir(ctx.home))
        && !IsUnder(plan.file, ReleaseZimArchivesDir(ctx.home))
  {
    var plan := MakeArchive(ctx, project, platform).value;
    var n := |ctx.home.parts|;
    assert plan.file.parts[..n + 1] == plan.dir.parts[..n + 1];
    if ctx.release {
      var root := ReleaseRoot(ctx.home, project);
      assert plan.file.parts[..|root.parts|] == root.parts;
      LayoutDistinct(ctx.home, ctx.buildPlatform);
      SiblingsDisjoint(ctx.home, root.parts[n], "NIGHTLY_ARCHIVES", plan.file);
    } else {
      assert plan.file.parts[..n + 1] == NightlyArchivesDir(ctx.home).parts;
      LayoutDistinct(ctx.home, ctx.buildPlatform);
      SiblingsDisjoint(ctx.home, "NIGHTLY_ARCHIVES", "RELEASE_KIWIX_ARCHIVES", plan.file);
      SiblingsDisjoint(ctx.home, "NIGHTLY_ARCHIVES", "RELEASE_ZIM_ARCHIVES", plan.file);
    }
  }

  /** One member per binary of the table, in the table's order: each is read
      from the installed file and its member name gives the binary back. On
      Windows the members are flat `.exe` names; elsewhere they sit under a
      directory named after the archive. */
  lemma ArchiveEntries(ctx: Context, project: string, platform: string)
    requires MakeArchive(ctx, project, platform).Ok?
    ensures var plan := MakeArchive(ctx, project, platform).value;
      var binaries := BINARIES[project];
      && |plan.entries| == |binaries|
      && forall i :: 0 <= i < |binaries| ==>
           && EntryBinary(plan, plan.entries[i].arcname) == Some(binaries[i])
           && plan.entries[i].source == Join(BinDir(ctx), LocalName(platform, binaries[i]))
           && (platform == "win32" ==> plan.entries[i].arcname == binaries[i] + ".exe" && '/' !in plan.entries[i].arcname)
           && (platform != "win32" ==> plan.entries[i].arcname == plan.name + "/" + binaries[i])
  {
    var plan := MakeArchive(ctx, project, platform).value;
    var binaries := BINARIES[project];
    BinariesAreFileNames();
    forall i | 0 <= i < |binaries|
      ensures EntryBinary(plan, plan.entries[i].arcname) == Some(binaries[i])
    {
      var a := plan.entries[i].arcname;
      if platform == "win32" {
        assert a == binaries[i] + ".exe";
        assert a[..|a| - 4] == binaries[i];
      } else {
        assert a == plan.name + "/" + binaries[i];
        assert a[..|plan.name + "/"|] == plan.name + "/";
        assert a[|plan.name| + 1..] == binaries[i];
      }
    }
  }

  /** The binaries of the table are plain file names. */
  lemma BinariesAreFileNames()
    ensures forall p, i :: p in BINARIES && 0 <= i < |BINARIES[p]| ==>
              '/' !in BINARIES[p][i] && '/' !in BINARIES[p][i] + ".exe"
  {
  }
}
