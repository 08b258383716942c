/** The version tables of kiwix-build and the rule that governs `release_versions`. */
module Versions {
  import opened Wrappers
  import opened Strings
  import ReleaseTag

  /** The version of each main project. */
  const MAIN_PROJECT_VERSIONS: map<string, string> := map[
    "libzim" := "9.2.3",
    "libkiwix" := "14.0.0",
    "kiwix-tools" := "3.7.0",
    "zim-tools" := "3.5.0",
    "kiwix-desktop" := "2.4.0"
  ]

  /** What each project publishes at this release (`None` is Python's `None`). */
  const RELEASE_VERSIONS: map<string, Option<int>> := map[
    "libzim" := None,
    "libkiwix" := None,
    "kiwix-tools" := None,
    "zim-tools" := None,
    "kiwix-desktop" := Some(0)
  ]

  /** The values recorded in the `(was ...)` remarks beside `RELEASE_VERSIONS`. */
  const RELEASE_VERSIONS_WAS: map<string, Option<int>> := map[
    "libzim" := Some(2),
    "libkiwix" := Some(1),
    "kiwix-tools" := Some(2),
    "zim-tools" := Some(0),
    "kiwix-desktop" := None
  ]

  /** The "version" of the whole base-dependency table. */
  const BASE_DEPS_META_VERSION: string := "10"

  const BASE_DEPS_VERSIONS: map<string, string> := map[
    "zlib" := "1.2.12",
    "lzma" := "5.2.6",
    "zstd" := "1.5.2",
    "docoptcpp" := "0.6.2",
    "uuid" := "1.43.4",
    "xapian-core" := "1.4.26",
    "mustache" := "4.1",
    "pugixml" := "1.2",
    "libmicrohttpd" := "0.9.76",
    "gumbo" := "0.10.1",
    "icu4c" := "73.2",
    "libaria2" := "1.37.0",
    "libmagic" := "5.44",
    "android-ndk" := "r21e",
    "org.kde" := "5.15-23.08",
    "io.qt.qtwebengine" := "5.15-23.08",
    "zim-testing-suite" := "0.6.0",
    "emsdk" := "3.1.41"
  ]

  /** A `release_versions` value is an integer or `None`; the rules only give
      a meaning to non-negative integers. */
  predicate ValidValue(v: Option<int>) {
    v.Some? ==> v.value >= 0
  }

  predicate ValidTable(t: map<string, Option<int>>) {
    forall p :: p in t ==> ValidValue(t[p])
  }

  /** The value for a project; a project missing from the table reads as `None`. */
  function Lookup(t: map<string, Option<int>>, project: string): Option<int> {
    if project in t then t[project] else None
  }

  /** What the release process does with a project. */
  datatype ReleaseKind =
    | NotReleased          // missing or None
    | FirstRelease         // 0: first build of this version
    | Rebuild(postfix: nat) // > 0: a rebuild, published with a build postfix

  function Classify(v: Option<int>): ReleaseKind
    requires ValidValue(v)
  {
    match v
    case None => NotReleased
    case Some(n) => if n == 0 then FirstRelease else Rebuild(n)
  }

  /** Whether the source archive is published. */
  predicate PublishesSource(k: ReleaseKind) { k.FirstRelease? }

  /** Whether the build archive is published. */
  predicate PublishesBuild(k: ReleaseKind) { !k.NotReleased? }

  /** The meaning of a value: missing or `None` is not released, 0 publishes
      source and build archives, a positive value only the build archive and
      with that value as build postfix. */
  lemma ClassifyMeaning(t: map<string, Option<int>>, project: string)
    requires ValidTable(t)
    ensures project !in t ==> !PublishesBuild(Classify(Lookup(t, project)))
    ensures Lookup(t, project).None? <==> Classify(Lookup(t, project)) == NotReleased
    ensures Lookup(t, project) == Some(0) <==>
              (PublishesSource(Classify(Lookup(t, project))) && PublishesBuild(Classify(Lookup(t, project))))
    ensures forall n: int :: n > 0 && Lookup(t, project) == Some(n) ==>
              Classify(Lookup(t, project)) == Rebuild(n) && !PublishesSource(Rebuild(n)) && PublishesBuild(Rebuild(n))
  {
  }

  /** A table entry: the current value and the value recorded as `(was ...)`. */
  datatype Entry = Entry(current: Option<int>, was: Option<int>)

  /** The documented maintenance rule for one project. When its dependencies
      changed and neither the value nor `(was ...)` holds a number, the rule
      gives nothing to increment and the result is `None`. */
  function UpdateEntry(e: Entry, versionChanged: bool, depsChanged: bool): (r: Option<Entry>)
    requires ValidValue(e.current) && ValidValue(e.was)
    ensures r.Some? ==> ValidValue(r.value.current) && ValidValue(r.value.was)
    ensures r.None? <==> !versionChanged && depsChanged && e.current.None? && e.was.None?
    ensures versionChanged ==> r.Some? && Classify(r.value.current) == FirstRelease
    ensures !versionChanged && !depsChanged ==>
              && r.Some? && Classify(r.value.current) == NotReleased
              && r.value.was == (if e.current.Some? then e.current else e.was)
    ensures !versionChanged && depsChanged && r.Some? ==>
              Classify(r.value.current) ==
                Rebuild(1 + (if e.current.Some? then e.current.value else e.was.value))
  {
    if versionChanged then Some(Entry(Some(0), e.was))
    else if !depsChanged then Some(Entry(None, if e.current.Some? then e.current else e.was))
    else match e.current
      case Some(n) => Some(Entry(Some(n + 1), e.was))
      case None => match e.was
        case Some(n) => Some(Entry(Some(n + 1), e.was))
        case None => None
  }

  /** Both shown release tables hold only `None` or non-negative integers. */
  lemma ReleaseTablesValid()
    ensures ValidTable(RELEASE_VERSIONS)
    ensures ValidTable(RELEASE_VERSIONS_WAS)
  {
  }

  /** `release_versions` lists exactly the five main projects. */
  lemma ReleaseTableCoversMainProjects()
    ensures RELEASE_VERSIONS.Keys == MAIN_PROJECT_VERSIONS.Keys
    ensures RELEASE_VERSIONS_WAS.Keys == MAIN_PROJECT_VERSIONS.Keys
    ensures |MAIN_PROJECT_VERSIONS.Keys| == 5
  {
  }

  /** Every main project version has the form of a release tag. */
  lemma MainVersionsAreReleaseTags()
    ensures forall p :: p in MAIN_PROJECT_VERSIONS ==> ReleaseTag.IsReleaseTag(MAIN_PROJECT_VERSIONS[p])
  {
    forall p | p in MAIN_PROJECT_VERSIONS
      ensures ReleaseTag.IsReleaseTag(MAIN_PROJECT_VERSIONS[p])
    {
      var v := MAIN_PROJECT_VERSIONS[p];
      if p == "libzim" {
        assert v == "9" + "." + "2" + "." + "3";
        ReleaseTag.ReleaseTagOfNumbers("9", "2", "3");
      } else if p == "libkiwix" {
        assert v == "14" + "." + "0" + "." + "0";
        ReleaseTag.ReleaseTagOfNumbers("14", "0", "0");
      } else if p == "kiwix-tools" {
        assert v == "3" + "." + "7" + "." + "0";
        ReleaseTag.ReleaseTagOfNumbers("3", "7", "0");
      } else if p == "zim-tools" {
        assert v == "3" + "." + "5" + "." + "0";
        ReleaseTag.ReleaseTagOfNumbers("3", "5", "0");
      } else {
        assert v == "2" + "." + "4" + "." + "0";
        ReleaseTag.ReleaseTagOfNumbers("2", "4", "0");
      }
    }
  }

  /** At this release only kiwix-desktop is published, for the first time. */
  lemma CurrentReleasePlan()
    ensures Classify(Lookup(RELEASE_VERSIONS, "kiwix-desktop")) == FirstRelease
    ensures forall p :: p in RELEASE_VERSIONS && p != "kiwix-desktop" ==>
              Classify(Lookup(RELEASE_VERSIONS, p)) == NotReleased
  {
  }

  /** The driver asks the version table for `kiwix-lib` and `zimwriterfs`,
      which the shown table does not hold. */
  lemma DriverProjectsMissingFromTable()
    ensures "kiwix-lib" !in MAIN_PROJECT_VERSIONS && "zimwriterfs" !in MAIN_PROJECT_VERSIONS
    ensures "kiwix-tools" in MAIN_PROJECT_VERSIONS && "libzim" in MAIN_PROJECT_VERSIONS
    ensures "pugixml" in BASE_DEPS_VERSIONS && BASE_DEPS_VERSIONS["pugixml"] == "1.2"
  {
  }
}
