/** Planning the dependency bundles that cache a build between CI runs
    (`make_deps_archive`, `write_manifest` and the bundle names). */
module DepsArchive {
  import opened Wrappers
  import opened Strings
  import opened Paths

  const STARS: string := "***************************"

  function ManifestContent(target: string, platform: string): string {
    "Dependencies archive for " + target + " on platform " + platform
  }

  /** The text of `manifest.txt`, line by line: the archive name, a rule of
      stars, an empty line, what the bundle is for, its date, and the final
      newline. */
  function Manifest(archiveName: string, target: string, platform: string, date: string): string {
    JoinWith([archiveName, STARS, "", ManifestContent(target, platform), "Generated at " + date, ""], '\n')
  }

  /** Read line by line, the manifest gives back the archive name, the target,
      the platform and the date in their fixed places. */
  lemma ManifestLines(archiveName: string, target: string, platform: string, date: string)
    requires '\n' !in archiveName && '\n' !in target && '\n' !in platform && '\n' !in date
    ensures Split(Manifest(archiveName, target, platform, date), '\n') ==
              [archiveName, STARS, "", ManifestContent(target, platform), "Generated at " + date, ""]
  {
    var lines := [archiveName, STARS, "", ManifestContent(target, platform), "Generated at " + date, ""];
    assert '\n' !in STARS;
    assert '\n' !in ManifestContent(target, platform);
    assert '\n' !in "Generated at " + date;
    assert forall i :: 0 <= i < |lines| ==> '\n' !in lines[i];
    SplitJoinWith(lines, '\n');
  }

  /** The per-target bundle. */
  function DepsArchiveName(platform: string, target: string): string {
    "deps_" + platform + "_" + target + ".tar.gz"
  }

  /** The bootstrap bundle of all base dependencies. */
  function BaseDepsArchiveName(platform: string, metaVersion: string): string {
    "base_deps_" + platform + "_" + metaVersion + ".tar.gz"
  }

  /** Per-target bundles of one platform have distinct names, and none is
      named like a bootstrap bundle, although all go to the same place. */
  lemma BundleNamesDistinct(platform: string, t1: string, t2: string, platform2: string, meta: string)
    ensures DepsArchiveName(platform, t1) == DepsArchiveName(platform, t2) ==> t1 == t2
    ensures DepsArchiveName(platform, t1) != BaseDepsArchiveName(platform2, meta)
  {
    var n1 := DepsArchiveName(platform, t1);
    var n2 := DepsArchiveName(platform, t2);
    var k := |"deps_" + platform + "_"|;
    if n1 == n2 {
      assert |t1| == |t2|;
      assert n1[k..k + |t1|] == t1;
      assert n2[k..k + |t2|] == t2;
    }
    assert n1[0] == 'd' && BaseDepsArchiveName(platform2, meta)[0] == 'b';
  }

  /** What the file system and the tables offer `make_deps_archive`: the home
      directory, the CI platform, the glob results (each as the components
      below the directory that was searched), which optional files exist,
      the base dependency versions and the manifest's date. */
  datatype DepsInputs = DepsInputs(
    home: Path,
    platform: string,
    ndkMatches: seq<seq<string>>,      // BASE_DIR.glob of android-ndk*, at any depth
    mesonCrossFileExists: bool,
    archiveOkMarkers: seq<seq<string>>, // ARCHIVE_DIR.glob('.*_ok')
    buildOkMarkers: seq<seq<string>>,   // BASE_DIR.glob('*/.*_ok')
    sourceOkMarkers: seq<seq<string>>,  // SOURCE_DIR.glob('*/.*_ok')
    toolchainsExists: bool,
    baseDepsVersions: map<string, string>,
    manifestDate: string)

  datatype DepsPlan = DepsPlan(
    archiveName: string,
    manifestFile: Path,
    manifest: string,
    files: seq<Path>,          // what is archived, in order
    base: Path,                // the directory member names are relative to
    members: seq<seq<string>>, // the member name of each file
    archive: Path)

  function UnderAll(root: Path, rels: seq<seq<string>>): (ps: seq<Path>)
    ensures |ps| == |rels|
  {
    seq(|rels|, i requires 0 <= i < |rels| => Under(root, rels[i]))
  }

  function InstallDir(inp: DepsInputs): Path { Join(BaseDir(inp.home, inp.platform), "INSTALL") }
  function MesonCrossFile(inp: DepsInputs): Path { Join(BaseDir(inp.home, inp.platform), "meson_cross_file.txt") }
  function ManifestFile(inp: DepsInputs): Path { Join(BaseDir(inp.home, inp.platform), "manifest.txt") }

  /** The directory member names are relative to. */
  function RelativeBase(inp: DepsInputs, full: bool): Path {
    if full then inp.home else BaseDir(inp.home, inp.platform)
  }

  function DepsArchivePath(home: Path, platform: string, target: string, full: bool): Path {
    Join(if full then home else BaseDir(home, platform), DepsArchiveName(platform, target))
  }

  /** What every bundle holds: the install tree, the NDK matches, the cross
      file when it exists, and the manifest. */
  function PartialFiles(inp: DepsInputs): seq<Path> {
    var base := BaseDir(inp.home, inp.platform);
    [InstallDir(inp)] + UnderAll(base, inp.ndkMatches)
    + (if inp.mesonCrossFileExists then [MesonCrossFile(inp)] else []) + [ManifestFile(inp)]
  }

  /** What a full bundle adds: the completion markers of three trees, both
      copies of the pugixml sources, and the toolchains when they exist. */
  function FullExtras(inp: DepsInputs, pugixml: string): seq<Path> {
    var base := BaseDir(inp.home, inp.platform);
    UnderAll(ArchiveDir(inp.home), inp.archiveOkMarkers)
    + UnderAll(base, inp.buildOkMarkers)
    + UnderAll(SourceDir(inp.home), inp.sourceOkMarkers)
    + [Join(SourceDir(inp.home), "pugixml-" + pugixml), Join(base, "pugixml-" + pugixml)]
    + (if inp.toolchainsExists then [ToolchainsDir(inp.home)] else [])
  }

  function DepsFiles(inp: DepsInputs, full: bool): seq<Path>
    requires full ==> "pugixml" in inp.baseDepsVersions
  {
    PartialFiles(inp) + (if full then FullExtras(inp, inp.baseDepsVersions["pugixml"]) else [])
  }

  /** The recursive glob for `android-ndk*` only yields paths whose last component
      starts with `android-ndk`. */
  predicate NdkMatchesShaped(inp: DepsInputs) {
    forall k :: 0 <= k < |inp.ndkMatches| ==>
      |inp.ndkMatches[k]| > 0 && StartsWith(inp.ndkMatches[k][|inp.ndkMatches[k]| - 1], "android-ndk")
  }

  /** The glob `.*_ok`: a hidden name ending in `_ok`. */
  predicate OkMarkerName(name: string) {
    |name| >= 4 && StartsWith(name, ".") && EndsWith(name, "_ok")
  }

  /** The marker globs only yield marker names: `.*_ok` directly in the archive
      directory, and one directory further down in the build and source directories. */
  predicate MarkersShaped(inp: DepsInputs) {
    && (forall k :: 0 <= k < |inp.archiveOkMarkers| ==>
          |inp.archiveOkMarkers[k]| == 1 && OkMarkerName(inp.archiveOkMarkers[k][0]))
    && (forall k :: 0 <= k < |inp.buildOkMarkers| ==>
          |inp.buildOkMarkers[k]| == 2 && OkMarkerName(inp.buildOkMarkers[k][1]))
    && (forall k :: 0 <= k < |inp.sourceOkMarkers| ==>
          |inp.sourceOkMarkers[k]| == 2 && OkMarkerName(inp.sourceOkMarkers[k][1]))
  }

  /** No NDK match is a plain child of the build directory other than an
      `android-ndk*` one. */
  lemma NdkMatchesAvoid(inp: DepsInputs, name: string)
    requires NdkMatchesShaped(inp)
    requires |name| > 0 && name[0] != 'a'
    ensures Join(BaseDir(inp.home, inp.platform), name) !in UnderAll(BaseDir(inp.home, inp.platform), inp.ndkMatches)
  {
    var base := BaseDir(inp.home, inp.platform);
    forall k | 0 <= k < |inp.ndkMatches|
      ensures Under(base, inp.ndkMatches[k]) != Join(base, name)
    {
      var rel := inp.ndkMatches[k];
      if |rel| == 1 {
        assert rel[0][..11] == "android-ndk";
        assert rel[0][0] == rel[0][..11][0];
        assert Under(base, rel).parts[|base.parts|] == rel[0];
        assert Join(base, name).parts[|base.parts|] == name;
      }
    }
  }

  /** The cross file is in a bundle exactly when it exists. */
  lemma CrossFileIffExists(inp: DepsInputs, full: bool)
    requires NdkMatchesShaped(inp)
    requires full ==> "pugixml" in inp.baseDepsVersions && MarkersShaped(inp)
    ensures MesonCrossFile(inp) in DepsFiles(inp, full) <==> inp.mesonCrossFileExists
  {
    if inp.mesonCrossFileExists {
      assert DepsFiles(inp, full)[1 + |inp.ndkMatches|] == MesonCrossFile(inp);
    } else {
      var n := |inp.home.parts|;
      var base := BaseDir(inp.home, inp.platform);
      var m := MesonCrossFile(inp);
      assert "meson_cross_file.txt"[0] == 'm';
      NdkMatchesAvoid(inp, "meson_cross_file.txt");
      ChildrenDistinct(base, "INSTALL", "meson_cross_file.txt");
      ChildrenDistinct(base, "manifest.txt", "meson_cross_file.txt");
      if full {
        assert m.parts[n] == "BUILD_" + inp.platform;
        assert m.parts[n][0] == 'B';
        forall k | 0 <= k < |inp.archiveOkMarkers|
          ensures Under(ArchiveDir(inp.home), inp.archiveOkMarkers[k]) != m
        {
          assert Under(ArchiveDir(inp.home), inp.archiveOkMarkers[k]).parts[n] == "ARCHIVE";
        }
        forall k | 0 <= k < |inp.sourceOkMarkers|
          ensures Under(SourceDir(inp.home), inp.sourceOkMarkers[k]) != m
        {
          assert Under(SourceDir(inp.home), inp.sourceOkMarkers[k]).parts[n] == "SOURCE";
        }
        forall k | 0 <= k < |inp.buildOkMarkers|
          ensures Under(base, inp.buildOkMarkers[k]) != m
        {
          assert |Under(base, inp.buildOkMarkers[k]).parts| == n + 3;
        }
        var v := inp.baseDepsVersions["pugixml"];
        assert Join(SourceDir(inp.home), "pugixml-" + v).parts[n] == "SOURCE";
        assert ("pugixml-" + v)[0] == 'p';
        ChildrenDistinct(base, "pugixml-" + v, "meson_cross_file.txt");
        assert DepsFiles(inp, full) == PartialFiles(inp) + FullExtras(inp, v);
      }
    }
  }

  /** A partial bundle holds none of the completion markers the globs find. */
  lemma PartialHasNoMarkers(inp: DepsInputs)
    requires NdkMatchesShaped(inp) && MarkersShaped(inp)
    ensures forall m :: m in inp.archiveOkMarkers ==> Under(ArchiveDir(inp.home), m) !in DepsFiles(inp, false)
    ensures forall m :: m in inp.buildOkMarkers ==> Under(BaseDir(inp.home, inp.platform), m) !in DepsFiles(inp, false)
    ensures forall m :: m in inp.sourceOkMarkers ==> Under(SourceDir(inp.home), m) !in DepsFiles(inp, false)
  {
    var n := |inp.home.parts|;
    var base := BaseDir(inp.home, inp.platform);
    var partial := DepsFiles(inp, false);
    AllUnderBase(inp, false);
    assert "ARCHIVE"[0] != ("BUILD_" + inp.platform)[0] && "SOURCE"[0] != ("BUILD_" + inp.platform)[0];
    forall m | m in inp.archiveOkMarkers
      ensures Under(ArchiveDir(inp.home), m) !in partial
    {
      var x := Under(ArchiveDir(inp.home), m);
      assert IsUnder(x, ArchiveDir(inp.home)) by { assert x.parts[..n + 1] == ArchiveDir(inp.home).parts; }
      SiblingsDisjoint(inp.home, "ARCHIVE", "BUILD_" + inp.platform, x);
    }
    forall m | m in inp.sourceOkMarkers
      ensures Under(SourceDir(inp.home), m) !in partial
    {
      var x := Under(SourceDir(inp.home), m);
      assert IsUnder(x, SourceDir(inp.home)) by { assert x.parts[..n + 1] == SourceDir(inp.home).parts; }
      SiblingsDisjoint(inp.home, "SOURCE", "BUILD_" + inp.platform, x);
    }
    forall m | m in inp.buildOkMarkers
      ensures Under(base, m) !in partial
    {
      var j :| 0 <= j < |inp.buildOkMarkers| && inp.buildOkMarkers[j] == m;
      var x := Under(base, m);
      forall k | 0 <= k < |inp.ndkMatches|
        ensures Under(base, inp.ndkMatches[k]) != x
      {
        var rel := inp.ndkMatches[k];
        assert rel[|rel| - 1][0] == rel[|rel| - 1][..11][0] == 'a';
        assert m[1][0] == m[1][..1][0] == '.';
        assert Under(base, rel).parts[n + 1..] == rel;
        assert x.parts[n + 1..] == m;
      }
      assert |x.parts| == n + 3;
    }
  }

  /** Every bundle starts with the install tree and holds the manifest; the
      cross file follows the NDK matches exactly when it exists. */
  lemma DepsFilesCommon(inp: DepsInputs, full: bool)
    requires full ==> "pugixml" in inp.baseDepsVersions
    ensures var files := DepsFiles(inp, full);
      && files[0] == InstallDir(inp)
      && ManifestFile(inp) in files
      && (files[1 + |inp.ndkMatches|] == MesonCrossFile(inp) <==> inp.mesonCrossFileExists)
      && PartialFiles(inp) == files[..|PartialFiles(inp)|]
  {
    var files := DepsFiles(inp, full);
    var p := PartialFiles(inp);
    assert p[|p| - 1] == ManifestFile(inp);
    assert files[|p| - 1] == ManifestFile(inp);
    if !inp.mesonCrossFileExists {
      assert files[1 + |inp.ndkMatches|] == ManifestFile(inp);
      assert ManifestFile(inp).parts[|inp.home.parts| + 1][1] == 'a';
    }
  }

  /** A partial bundle holds neither the toolchains nor either pugixml copy;
      a full one holds both pugixml copies, the toolchains exactly when they
      exist, and every completion marker found. */
  lemma DepsFilesFullOnly(inp: DepsInputs, version: string)
    requires NdkMatchesShaped(inp)
    requires "pugixml" in inp.baseDepsVersions && inp.baseDepsVersions["pugixml"] == version
    ensures ToolchainsDir(inp.home) !in DepsFiles(inp, false)
    ensures Join(SourceDir(inp.home), "pugixml-" + version) !in DepsFiles(inp, false)
    ensures Join(BaseDir(inp.home, inp.platform), "pugixml-" + version) !in DepsFiles(inp, false)
    ensures Join(SourceDir(inp.home), "pugixml-" + version) in DepsFiles(inp, true)
    ensures Join(BaseDir(inp.home, inp.platform), "pugixml-" + version) in DepsFiles(inp, true)
    ensures inp.toolchainsExists <==> DepsFiles(inp, true)[|DepsFiles(inp, true)| - 1] == ToolchainsDir(inp.home)
    ensures forall m :: m in inp.sourceOkMarkers ==> Under(SourceDir(inp.home), m) in DepsFiles(inp, true)
    ensures forall m :: m in inp.buildOkMarkers ==> Under(BaseDir(inp.home, inp.platform), m) in DepsFiles(inp, true)
    ensures forall m :: m in inp.archiveOkMarkers ==> Under(ArchiveDir(inp.home), m) in DepsFiles(inp, true)
  {
    var n := |inp.home.parts|;
    var base := BaseDir(inp.home, inp.platform);
    var partial := DepsFiles(inp, false);
    assert "TOOLCHAINS" != "BUILD_" + inp.platform by { assert "TOOLCHAINS"[0] != ("BUILD_" + inp.platform)[0]; }
    assert "SOURCE" != "BUILD_" + inp.platform by { assert "SOURCE"[0] != ("BUILD_" + inp.platform)[0]; }
    AllUnderBase(inp, false);
    if ToolchainsDir(inp.home) in partial {
      SiblingsDisjoint(inp.home, "BUILD_" + inp.platform, "TOOLCHAINS", ToolchainsDir(inp.home));
    }
    var src := Join(SourceDir(inp.home), "pugixml-" + version);
    if src in partial {
      SiblingsDisjoint(inp.home, "BUILD_" + inp.platform, "SOURCE", src);
    }
    var built := Join(base, "pugixml-" + version);
    assert ("pugixml-" + version)[0] == 'p';
    ChildrenDistinct(base, "pugixml-" + version, "INSTALL");
    ChildrenDistinct(base, "pugixml-" + version, "meson_cross_file.txt");
    ChildrenDistinct(base, "pugixml-" + version, "manifest.txt");
    forall k | 0 <= k < |inp.ndkMatches|
      ensures built != Under(base, inp.ndkMatches[k])
    {
      var rel := inp.ndkMatches[k];
      if |rel| == 1 {
        assert rel[0][..11] == "android-ndk";
        assert rel[0][0] == rel[0][..11][0];
        assert Under(base, rel).parts[n + 1] == rel[0];
      }
    }
    var full := DepsFiles(inp, true);
    var extras := FullExtras(inp, version);
    assert full == partial + extras;
    if !inp.toolchainsExists {
      assert full[|full| - 1] == built;
      assert built != ToolchainsDir(inp.home) by { assert built.parts[n] == "BUILD_" + inp.platform; }
    }
    forall m | m in inp.sourceOkMarkers
      ensures Under(SourceDir(inp.home), m) in full
    {
      var k :| 0 <= k < |inp.sourceOkMarkers| && inp.sourceOkMarkers[k] == m;
      assert UnderAll(SourceDir(inp.home), inp.sourceOkMarkers)[k] == Under(SourceDir(inp.home), m);
    }
    forall m | m in inp.buildOkMarkers
      ensures Under(base, m) in full
    {
      var k :| 0 <= k < |inp.buildOkMarkers| && inp.buildOkMarkers[k] == m;
      assert UnderAll(base, inp.buildOkMarkers)[k] == Under(base, m);
    }
    forall m | m in inp.archiveOkMarkers
      ensures Under(ArchiveDir(inp.home), m) in full
    {
      var k :| 0 <= k < |inp.archiveOkMarkers| && inp.archiveOkMarkers[k] == m;
      assert UnderAll(ArchiveDir(inp.home), inp.archiveOkMarkers)[k] == Under(ArchiveDir(inp.home), m);
    }
  }

  /** Every archived path lies under the directory member names are taken
      relative to, so `relative_to` never fails. */
  lemma AllUnderBase(inp: DepsInputs, full: bool)
    requires full ==> "pugixml" in inp.baseDepsVersions
    ensures forall k :: 0 <= k < |DepsFiles(inp, full)| ==> IsUnder(DepsFiles(inp, full)[k], RelativeBase(inp, full))
  {
    var rb := RelativeBase(inp, full);
    var base := BaseDir(inp.home, inp.platform);
    assert IsUnder(base, rb) by { assert base.parts[..|rb.parts|] == rb.parts; }
    UnderAllIsUnder(base, inp.ndkMatches, rb);
    Descendant(base, ["INSTALL"], rb);
    Descendant(base, ["meson_cross_file.txt"], rb);
    Descendant(base, ["manifest.txt"], rb);
    if full {
      var v := inp.baseDepsVersions["pugixml"];
      UnderAllIsUnder(ArchiveDir(inp.home), inp.archiveOkMarkers, rb);
      UnderAllIsUnder(base, inp.buildOkMarkers, rb);
      UnderAllIsUnder(SourceDir(inp.home), inp.sourceOkMarkers, rb);
      assert IsUnder(SourceDir(inp.home), rb) && IsUnder(ArchiveDir(inp.home), rb)
        && IsUnder(ToolchainsDir(inp.home), rb) && IsUnder(Join(base, "pugixml-" + v), rb)
        && IsUnder(Join(SourceDir(inp.home), "pugixml-" + v), rb) by {
        Descendant(inp.home, ["SOURCE"], rb);
        Descendant(inp.home, ["ARCHIVE"], rb);
        Descendant(inp.home, ["TOOLCHAINS"], rb);
        Descendant(base, ["pugixml-" + v], rb);
        Descendant(inp.home, ["SOURCE", "pugixml-" + v], rb);
        assert Under(inp.home, ["SOURCE", "pugixml-" + v]) == Join(SourceDir(inp.home), "pugixml-" + v);
      }
    }
  }

  lemma UnderAllIsUnder(root: Path, rels: seq<seq<string>>, base: Path)
    requires IsUnder(root, base)
    ensures forall k :: 0 <= k < |rels| ==> IsUnder(UnderAll(root, rels)[k], base)
  {
    forall k | 0 <= k < |rels|
      ensures IsUnder(UnderAll(root, rels)[k], base)
    {
      assert UnderAll(root, rels)[k].parts[..|root.parts|] == root.parts;
    }
  }

  /** The first half of `make_deps_archive`: gather the paths to archive. A
      full bundle needs the pugixml version; without it the subscription raises. */
  method CollectFiles(full: bool, inp: DepsInputs) returns (r: Result<seq<Path>, KeyError>)
    ensures r.Err? <==> full && "pugixml" !in inp.baseDepsVersions
    ensures r.Err? ==> r.error == KeyError("base_deps_versions", "pugixml")
    ensures r.Ok? ==> r.value == DepsFiles(inp, full)
  {
    var baseDir := BaseDir(inp.home, inp.platform);
    var files := [Join(baseDir, "INSTALL")];
    files := files + UnderAll(baseDir, inp.ndkMatches);
    if inp.mesonCrossFileExists {
      files := files + [Join(baseDir, "meson_cross_file.txt")];
    }
    files := files + [Join(baseDir, "manifest.txt")];
    if full {
      ghost var partial := files;
      files := files + UnderAll(ArchiveDir(inp.home), inp.archiveOkMarkers);
      files := files + UnderAll(baseDir, inp.buildOkMarkers);
      files := files + UnderAll(SourceDir(inp.home), inp.sourceOkMarkers);
      var pugixml := Get(inp.baseDepsVersions, "pugixml", "base_deps_versions");
      if pugixml.Err? {
        return Err(pugixml.error);
      }
      files := files + [Join(SourceDir(inp.home), "pugixml-" + pugixml.value)];
      files := files + [Join(baseDir, "pugixml-" + pugixml.value)];
      if inp.toolchainsExists {
        files := files + [ToolchainsDir(inp.home)];
      }
      assert files == partial + FullExtras(inp, pugixml.value);
    }
    r := Ok(files);
  }

  /** The loop that adds each path to the tarball under its name relative to `base`. */
  method MemberNames(files: seq<Path>, base: Path) returns (members: seq<seq<string>>)
    requires forall k :: 0 <= k < |files| ==> IsUnder(files[k], base)
    ensures |members| == |files|
    ensures forall k :: 0 <= k < |files| ==> Under(base, members[k]) == files[k]
  {
    members := [];
    var i := 0;
    while i < |files|
      invariant 0 <= i <= |files|
      invariant |members| == i
      invariant forall k :: 0 <= k < i ==> Under(base, members[k]) == files[k]
    {
      var rel := RelativeTo(files[i], base);
      members := members + [rel.value];
      i := i + 1;
    }
  }

  /** `make_deps_archive`: the paths, the manifest, the base for member names
      (home for a full bundle, the build directory otherwise) and the bundle file. */
  method MakeDepsArchive(target: string, full: bool, inp: DepsInputs) returns (r: Result<DepsPlan, KeyError>)
    ensures r.Err? <==> full && "pugixml" !in inp.baseDepsVersions
    ensures r.Err? ==> r.error == KeyError("base_deps_versions", "pugixml")
    ensures r.Ok? ==>
      var plan := r.value;
      && plan.archiveName == DepsArchiveName(inp.platform, target)
      && plan.manifestFile == ManifestFile(inp)
      && plan.manifest == Manifest(plan.archiveName, target, inp.platform, inp.manifestDate)
      && plan.files == DepsFiles(inp, full)
      && plan.base == RelativeBase(inp, full)
      && plan.archive == DepsArchivePath(inp.home, inp.platform, target, full)
      && |plan.members| == |plan.files|
      && forall k :: 0 <= k < |plan.files| ==> Under(plan.base, plan.members[k]) == plan.files[k]
  {
    var baseDir := BaseDir(inp.home, inp.platform);
    var archiveName := DepsArchiveName(inp.platform, target);
    var manifestFile := Join(baseDir, "manifest.txt");
    var manifest := Manifest(archiveName, target, inp.platform, inp.manifestDate);
    var files := CollectFiles(full, inp);
    if files.Err? {
      return Err(files.error);
    }
    var relativePath := if full then inp.home else baseDir;
    AllUnderBase(inp, full);
    var members := MemberNames(files.value, relativePath);
    r := Ok(DepsPlan(archiveName, manifestFile, manifest, files.value, relativePath, members,
                     Join(relativePath, archiveName)));
  }
}
