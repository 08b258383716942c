/** File-system paths as component lists, and the driver's fixed directory layout
    (all under the home directory). */
module Paths {
  import opened Wrappers
  import opened Strings

  datatype Path = Path(parts: seq<string>)

  /** `p / name` */
  function Join(p: Path, name: string): Path {
    Path(p.parts + [name])
  }

  /** The path reached from `root` by the relative components `rel`. */
  function Under(root: Path, rel: seq<string>): Path {
    Path(root.parts + rel)
  }

  predicate IsUnder(p: Path, base: Path) {
    |base.parts| <= |p.parts| && p.parts[..|base.parts|] == base.parts
  }

  /** `p.relative_to(base)`: `None` where pathlib raises `ValueError`. */
  function RelativeTo(p: Path, base: Path): (r: Option<seq<string>>)
    ensures r.Some? <==> IsUnder(p, base)
    ensures r.Some? ==> Under(base, r.value) == p
  {
    if IsUnder(p, base) then Some(p.parts[|base.parts|..]) else None
  }

  /** Every path built from `base` lies under it, with exactly the components used. */
  lemma RelativeToUnder(base: Path, rel: seq<string>)
    ensures RelativeTo(Under(base, rel), base) == Some(rel)
  {
    assert Under(base, rel).parts[..|base.parts|] == base.parts;
    assert Under(base, rel).parts[|base.parts|..] == rel;
  }

  function BaseDir(home: Path, platform: string): Path { Join(home, "BUILD_" + platform) }
  function SourceDir(home: Path): Path { Join(home, "SOURCE") }
  function ArchiveDir(home: Path): Path { Join(home, "ARCHIVE") }
  function ToolchainsDir(home: Path): Path { Join(home, "TOOLCHAINS") }
  function NightlyArchivesDir(home: Path): Path { Join(home, "NIGHTLY_ARCHIVES") }
  function ReleaseKiwixArchivesDir(home: Path): Path { Join(home, "RELEASE_KIWIX_ARCHIVES") }
  function ReleaseZimArchivesDir(home: Path): Path { Join(home, "RELEASE_ZIM_ARCHIVES") }
  function DistKiwixArchivesDir(home: Path): Path { Join(home, "DIST_KIWIX_ARCHIVES") }
  function DistZimArchivesDir(home: Path): Path { Join(home, "DIST_ZIM_ARCHIVES") }

  /** Two different children of one directory are different paths. */
  lemma ChildrenDistinct(p: Path, a: string, b: string)
    requires a != b
    ensures Join(p, a) != Join(p, b)
  {
    assert Join(p, a).parts[|p.parts|] == a;
    assert Join(p, b).parts[|p.parts|] == b;
  }

  /** Whatever is reached from a path under `base` is under `base`. */
  lemma Descendant(root: Path, rel: seq<string>, base: Path)
    requires IsUnder(root, base)
    ensures IsUnder(Under(root, rel), base)
  {
    assert Under(root, rel).parts[..|root.parts|] == root.parts;
    assert Under(root, rel).parts[..|base.parts|] == root.parts[..|base.parts|];
  }

  /** Paths under two different children of the same directory are never
      under one another's child. */
  lemma SiblingsDisjoint(home: Path, a: string, b: string, p: Path)
    requires a != b
    requires IsUnder(p, Join(home, a))
    ensures !IsUnder(p, Join(home, b))
  {
    var n := |home.parts|;
    assert Join(home, a).parts[n] == a;
    assert Join(home, b).parts[n] == b;
  }

  /** The five archive roots are pairwise distinct children of home, and the
      build directory is not the toolchains directory. */
  lemma LayoutDistinct(home: Path, platform: string)
    ensures NightlyArchivesDir(home) != ReleaseKiwixArchivesDir(home)
    ensures NightlyArchivesDir(home) != ReleaseZimArchivesDir(home)
    ensures NightlyArchivesDir(home) != DistKiwixArchivesDir(home)
    ensures NightlyArchivesDir(home) != DistZimArchivesDir(home)
    ensures ReleaseKiwixArchivesDir(home) != ReleaseZimArchivesDir(home)
    ensures ReleaseKiwixArchivesDir(home) != DistKiwixArchivesDir(home)
    ensures ReleaseKiwixArchivesDir(home) != DistZimArchivesDir(home)
    ensures ReleaseZimArchivesDir(home) != DistKiwixArchivesDir(home)
    ensures ReleaseZimArchivesDir(home) != DistZimArchivesDir(home)
    ensures DistKiwixArchivesDir(home) != DistZimArchivesDir(home)
    ensures BaseDir(home, platform) != ToolchainsDir(home)
  {
    // The five root names have five different lengths.
    assert |"NIGHTLY_ARCHIVES"| == 16 && |"RELEASE_KIWIX_ARCHIVES"| == 22 && |"RELEASE_ZIM_ARCHIVES"| == 20;
    assert |"DIST_KIWIX_ARCHIVES"| == 19 && |"DIST_ZIM_ARCHIVES"| == 17;
    ChildrenDistinct(home, "NIGHTLY_ARCHIVES", "RELEASE_KIWIX_ARCHIVES");
    ChildrenDistinct(home, "NIGHTLY_ARCHIVES", "RELEASE_ZIM_ARCHIVES");
    ChildrenDistinct(home, "NIGHTLY_ARCHIVES", "DIST_KIWIX_ARCHIVES");
    ChildrenDistinct(home, "NIGHTLY_ARCHIVES", "DIST_ZIM_ARCHIVES");
    ChildrenDistinct(home, "RELEASE_KIWIX_ARCHIVES", "RELEASE_ZIM_ARCHIVES");
    ChildrenDistinct(home, "RELEASE_KIWIX_ARCHIVES", "DIST_KIWIX_ARCHIVES");
    ChildrenDistinct(home, "RELEASE_KIWIX_ARCHIVES", "DIST_ZIM_ARCHIVES");
    ChildrenDistinct(home, "RELEASE_ZIM_ARCHIVES", "DIST_KIWIX_ARCHIVES");
    ChildrenDistinct(home, "RELEASE_ZIM_ARCHIVES", "DIST_ZIM_ARCHIVES");
    ChildrenDistinct(home, "DIST_KIWIX_ARCHIVES", "DIST_ZIM_ARCHIVES");
    assert ("BUILD_" + platform)[0] == 'B' && "TOOLCHAINS"[0] == 'T';
    ChildrenDistinct(home, "BUILD_" + platform, "TOOLCHAINS");
  }
}
