# kiwix-build CI driver, modelled in Dafny

This project models two pieces of kiwix-build.

- The decision and naming logic of the Travis CI driver `travis/compile_all.py`.
  - It decides whether a run is a release, from the CI tag.
  - It picks the targets to build for the platform and the event type.
  - It builds the `kiwix-build` command line for each target.
  - It plans the per-target dependency bundles and the bootstrap bundle: their names, the files they hold and the base for member names.
  - It plans the public binary archives: their names, directories, container and members.
  - It plans the post-build phase: source release tarballs on `native_dyn`, binary archives on the static platforms and the Android packages.
- The version tables of `kiwixbuild/versions.py`, with the meaning and maintenance rule that its comment gives to `release_versions`.

What the driver reads from its environment is made explicit, as parameters:

- the platform, the event type and the tag (which may be missing);
- the home directory and the date of the run;
- the version table;
- the results of the globs and of the existence checks.

Paths are lists of components (`Paths.Path`). A dictionary subscription that can raise `KeyError` is a `Result` whose error names the table and the key. What the driver does to the outside world is a `Driver.Action` in an ordered plan: a build, a bundle, an upload, a marker removal, a copy or an archive. A run (`Driver.Run`, specified by `Driver.RunSpec`) yields its actions in order. When a lookup raises, the run also yields its failure, and the actions stop at that point.

Modules:

| module | holds |
|---|---|
| `Wrappers` | `Option`, `Result`, `KeyError`, dictionary lookup |
| `Strings` | prefixes, digits, `str.split` and `str.join` with their round trip |
| `Paths` | paths, `relative_to`, the fixed directory layout under home |
| `ReleaseTag` | the release-tag matcher and its reference reading |
| `Versions` | the version tables and the release-versions rule |
| `Targets` | smoke and full target lists, written as an ordered prefix rule table |
| `BuildCommand` | `run_kiwix_build`'s command line and its parse |
| `Archives` | `make_archive` |
| `DepsArchive` | `make_deps_archive`, `write_manifest`, the bundle names |
| `Driver` | the run as a whole |

### Facts of the code the model keeps

- Bundle names have no operating-system part: `deps_{PLATFORM}_{target}.tar.gz` (travis/compile_all.py:114) and `base_deps_{PLATFORM}_{meta}.tar.gz` (travis/compile_all.py:162).
- The smoke dispatch has only `android`, `native_` and a fallback (travis/compile_all.py:183-188).
- The version table modelled is `kiwixbuild/versions.py`. It has no `kiwix-lib` and no `zimwriterfs`, although the driver looks up both (travis/compile_all.py:78, 244). The model takes the version table as a parameter, and these lookups fail as `KeyError`. With the table as shown:
  - a `native_static` release stops at `zimwriterfs` after archiving kiwix-tools and zim-tools (`Driver.ShownTableNativeStaticRelease`);
  - a `native_dyn` release stops at `zimwriterfs` after copying the libzim tarball (`Driver.ShownTableNativeDynRelease`).
- The update rule for `release_versions` does not say what happens in one case: the dependencies changed, and neither the current value nor `(was ...)` holds a number. `Versions.UpdateEntry` returns `None` there ("nothing to increment") and proves that this is the only such case.

## Model

| member | source | states |
|---|---|---|
| ReleaseTag.ReleaseTagIsThreeNumbers | travis/compile_all.py:158 | the anchored matcher accepts a tag iff it splits at `.` into exactly three non-empty runs of ASCII digits |
| ReleaseTag.MatchesFields | travis/compile_all.py:158 | from any state of the matcher (dots seen, current run non-empty), acceptance iff the remaining dot-separated fields complete three digit runs |
| ReleaseTag.ReleaseTagOfNumbers | travis/compile_all.py:158 | any three numbers joined by dots form a release tag |
| ReleaseTag.NoTagNoRelease | travis/compile_all.py:158 | a run with no tag, or an empty tag, is not a release |
| ReleaseTag.Matches | travis/compile_all.py:158 | the left-to-right matcher of `[0-9]+` `.` `[0-9]+` `.` `[0-9]+`, by dots seen and whether a digit run is open; what it accepts from each state is `ReleaseTag.MatchesFields` |
| ReleaseTag.IsReleaseTag | travis/compile_all.py:158 | the whole tag must match; `ReleaseTag.ReleaseTagIsThreeNumbers` proves it accepts exactly three dot-separated digit runs, `ReleaseTag.ReleaseTagOfNumbers` that every such tag is accepted |
| ReleaseTag.MakeRelease | travis/compile_all.py:158 | the release flag is the match of `TRAVIS_TAG`, the empty string when unset; `ReleaseTag.NoTagNoRelease` states the unset and empty cases |
| Versions.Classify | kiwixbuild/versions.py:11-17 | a valid value is not released (missing or `None`), a first release (0) or a rebuild with postfix n (n > 0); the cases are stated by `Versions.ClassifyMeaning`, and the tables it reads (`MAIN_PROJECT_VERSIONS`, `RELEASE_VERSIONS`, `RELEASE_VERSIONS_WAS`, `BASE_DEPS_VERSIONS`, versions.py:3-57) by the `Versions` lemmas below |
| Versions.ClassifyMeaning | kiwixbuild/versions.py:11-17 | a missing or `None` value is not released; 0 publishes source and build archives; n > 0 publishes only the build archive, with postfix n |
| Versions.UpdateEntry | kiwixbuild/versions.py:18-23 | version changed gives 0 (a first release); otherwise unchanged dependencies give `None` and record the old value as `(was ...)`; changed dependencies give one more than the current value, or than `(was ...)` when the current value is `None`; values stay non-negative; the result is `None` exactly when there is nothing to increment |
| Versions.ReleaseTablesValid | kiwixbuild/versions.py:25-31 | every shown `release_versions` value and every `(was ...)` value is `None` or a non-negative integer |
| Versions.ReleaseTableCoversMainProjects | kiwixbuild/versions.py:3-31 | `release_versions` and its `(was ...)` notes have exactly the five keys of `main_project_versions` |
| Versions.MainVersionsAreReleaseTags | kiwixbuild/versions.py:3-9 | every main project version is accepted by the release-tag matcher |
| Versions.CurrentReleasePlan | kiwixbuild/versions.py:25-31 | with the shown table only kiwix-desktop is released, as a first release |
| Versions.DriverProjectsMissingFromTable | kiwixbuild/versions.py:3-9 | the shown table lacks `kiwix-lib` and `zimwriterfs` but holds `libzim` and `kiwix-tools`; the pugixml base version is "1.2" |
| Paths.RelativeTo | travis/compile_all.py:139 | `relative_to` succeeds iff the path lies under the base, and the base followed by the result is the path again |
| Paths.RelativeToUnder | travis/compile_all.py:139 | a path built from a base gives back exactly the components used |
| Paths.LayoutDistinct | travis/compile_all.py:21-29 | all ten pairs of the five archive roots (nightly, the two release roots, the two dist roots) are distinct, and the build directory is not the toolchains directory |
| Paths.SiblingsDisjoint | travis/compile_all.py:21-29 | nothing under one directory of home lies under another |
| Targets.SmokeTargets | travis/compile_all.py:182-188 | the smoke list by platform prefix; its three lists are `Targets.SmokeCases`, its rule-table reading `Targets.DispatchIsRuleTable` |
| Targets.FullTargets | travis/compile_all.py:196-206 | the full list by platform prefix and release flag; stated by `Targets.FullCases`, `Targets.FullTargetsShape` and `Targets.FullTargetsRespectDependencies` |
| Targets.ResolveTargets | travis/compile_all.py:182-206 | a run that is neither cron nor release is a smoke build of `SmokeTargets`, every other run a full build of `FullTargets`; `Targets.SmokeCases` and `Targets.FullCases` state the outcome per platform |
| Targets.DispatchIsRuleTable | travis/compile_all.py:182-206 | both target dispatches equal a first-match prefix rule table: `android`, then `native_`, then the fallback |
| Targets.PrefixesExclusive | travis/compile_all.py:183-185 | no platform starts with both prefixes |
| Targets.SmokeCases | travis/compile_all.py:182-188 | a run that is neither cron nor release builds `kiwix-android` (android), the three tool projects (native_), or `kiwix-tools` |
| Targets.FullCases | travis/compile_all.py:196-206 | cron or release runs build `libzim, kiwix-lib` on an Android release and `libzim, kiwix-lib, kiwix-android` on other Android runs; native_ platforms build the five-project list and every other platform the three-project fallback |
| Targets.FullTargetsShape | travis/compile_all.py:196-206 | every full list starts with libzim, has no duplicates, and never holds kiwix-android on a release; the release list is the nightly list without kiwix-android |
| Targets.SmokeWithinNightly | travis/compile_all.py:182-206 | every smoke target is also a nightly target of the same platform |
| Targets.FullTargetsRespectDependencies | travis/compile_all.py:196-206 | every full list builds libzim before kiwix-lib, zim-tools and kiwix-tools, and kiwix-lib before kiwix-tools |
| BuildCommand.RunKiwixBuild | travis/compile_all.py:57-67 | the command is `kiwix-build target --hide-progress --target-platform platform`, then `--build-deps-only`, `--make-release` and `--make-dist`, each iff its flag is set and in that order; it parses back to its invocation |
| BuildCommand.ParseDeterminesCommand | travis/compile_all.py:57-67 | two command lines with the same parse are equal, so the command line is determined by the invocation |
| Archives.MakeArchive | travis/compile_all.py:73-108 | the plan fails iff the project is missing from `BINARIES`, or a release lacks the project's version; the error names that table and that key |
| Archives.ArchiveNaming | travis/compile_all.py:77-105 | the name is `{project}_{platform}-{postfix}`, where the postfix is the version on a release and the date otherwise; win32 gets a zip and every other platform a `.tar.gz`; the file is the name plus the extension in the archive directory |
| Archives.ArchiveDestination | travis/compile_all.py:77-90 | a release archive goes to `RELEASE_KIWIX_ARCHIVES/project` for kiwix-lib and kiwix-tools, else `RELEASE_ZIM_ARCHIVES/project`, and never to the nightly directory; a nightly archive goes to `NIGHTLY_ARCHIVES` and never below a release directory |
| Archives.ArchiveEntries | travis/compile_all.py:94-108 | there is one member per binary, in the table's order, read from `BUILD_{platform}/INSTALL/bin`; on win32 the member is `binary.exe` with no directory; otherwise it is `archive_name/binary`; each member name gives its binary back |
| Archives.BinariesAreFileNames | travis/compile_all.py:33-37 | every binary of the `BINARIES` table is a plain file name, with or without `.exe`; the table's contents are used by `Archives.ArchiveEntries` and `Driver.Win32StaticPost` |
| DepsArchive.Manifest | travis/compile_all.py:43-54 | the manifest text; `DepsArchive.ManifestLines` reads it back line by line |
| DepsArchive.DepsArchiveName | travis/compile_all.py:114 | `deps_{platform}_{target}.tar.gz`; `DepsArchive.BundleNamesDistinct` proves it injective in the target and never a bootstrap name |
| DepsArchive.BaseDepsArchiveName | travis/compile_all.py:162 | `base_deps_{platform}_{meta}.tar.gz`; distinct from every per-target name by `DepsArchive.BundleNamesDistinct` |
| DepsArchive.DepsFiles | travis/compile_all.py:115-134 | the files a bundle holds, in order; stated by `DepsFilesCommon`, `CrossFileIffExists`, `DepsFilesFullOnly`, `PartialHasNoMarkers` and `AllUnderBase`, and `CollectFiles` is proved to compute it |
| DepsArchive.ManifestLines | travis/compile_all.py:43-54 | the manifest's lines are the archive name, the star rule, an empty line, the target and platform line, the date line and the final newline |
| DepsArchive.BundleNamesDistinct | travis/compile_all.py:162 | per-target bundle names (`deps_{platform}_{target}.tar.gz`) are distinct for distinct targets; none is ever named like the bootstrap bundle `base_deps_{platform}_{meta}.tar.gz` |
| DepsArchive.DepsFilesCommon | travis/compile_all.py:115-122 | a bundle starts with `BUILD_{platform}/INSTALL` and holds `manifest.txt`; the cross file follows the NDK matches iff it exists; the partial list begins every bundle; that a missing cross file is absent altogether is `DepsArchive.CrossFileIffExists` |
| DepsArchive.CrossFileIffExists | travis/compile_all.py:115-122 | when the globs yield only `android-ndk*` and `.*_ok` names, `meson_cross_file.txt` is in a bundle, partial or full, iff it exists |
| DepsArchive.DepsFilesFullOnly | travis/compile_all.py:125-134 | only a full bundle holds the toolchains and both pugixml copies; a full bundle holds every completion marker found, and ends with the toolchains iff they exist; that a partial bundle holds no marker is `DepsArchive.PartialHasNoMarkers` |
| DepsArchive.PartialHasNoMarkers | travis/compile_all.py:115-127 | when the globs yield only `android-ndk*` and `.*_ok` names, no completion marker of the archive, build or source tree is in a partial bundle |
| DepsArchive.AllUnderBase | travis/compile_all.py:124-139 | every path archived lies under the base for member names: home for a full bundle, the build directory otherwise |
| DepsArchive.CollectFiles | travis/compile_all.py:115-134 | the growing file list equals the specified one; a full bundle without a pugixml version raises `KeyError` |
| DepsArchive.MemberNames | travis/compile_all.py:137-139 | the loop gives each file a member name, and the base followed by that name is the file |
| DepsArchive.MakeDepsArchive | travis/compile_all.py:111-140 | bundle name, manifest, file list, base and bundle path as specified; members relative to the base; fails only on the missing pugixml version |
| Driver.TargetSteps | travis/compile_all.py:208-224 | one target's actions: on cron the deps-only build, marker reset, bundle and upload, then the build, the dist build on a native_dyn release, and the marker reset; stated by `Driver.CronReleaseTargetSteps` and `Driver.CronBundlesPrecedeBuilds` |
| Driver.BuildSteps | travis/compile_all.py:208-224 | the actions of all targets in order; `Driver.FullBuilds` is proved to perform them, `Driver.BuildStepsOnlyBuild` and `Driver.BuildStepsPrefix` state their kind and order |
| Driver.PostBuildSteps | travis/compile_all.py:228-260 | the post-build dispatch by platform; stated per platform by `Driver.NativeStaticNightlyPost`, `Driver.NativeStaticReleasePost`, `Driver.Win32StaticPost`, `Driver.ArmAndI586StaticPost` and `Driver.PostBuildArchivesKnown` |
| Driver.StepActions | travis/compile_all.py:228-259 | the actions of one post-build step, or the `KeyError` that ends the run; stated by `Driver.DistCopyDestination` and `Driver.LinuxArchiveStep` |
| Driver.Sequence | travis/compile_all.py:228-259 | the steps in order, stopping at the first raise; `Driver.RunSteps` is proved to compute it, `Driver.SequenceStops`, `Driver.SequenceFailure` and `Driver.SequenceDestinations` state its properties |
| Driver.RunSpec | travis/compile_all.py:182-259 | the whole run: the smoke builds, or the build phase followed by the post-build phase; `Driver.Run` is proved to compute it, `Driver.FullRun` and `Driver.PullRequestRun` state its two shapes |
| Driver.FullRun | travis/compile_all.py:196-259 | a cron or release run is its build actions followed by the actions of its post-build phase, and fails exactly as that phase does |
| Driver.SmokeSteps | travis/compile_all.py:190-192 | one plain build per smoke target; `Driver.SmokeBuilds` is proved to perform them and `Driver.PullRequestRun` shows a smoke run does nothing else |
| Driver.SmokeBuilds | travis/compile_all.py:190-192 | one build per smoke target, in order, with no options |
| Driver.FullBuilds | travis/compile_all.py:208-224 | the main loop performs, target by target, the actions `BuildSteps` specifies |
| Driver.RunSteps | travis/compile_all.py:228-259 | the post-build loop performs the steps in order and stops at the first raise, as `Sequence` specifies |
| Driver.SequenceStops | travis/compile_all.py:228-259 | once a step has raised, later steps add nothing |
| Driver.Run | travis/compile_all.py:182-259 | one run performs the actions `RunSpec` specifies |
| Driver.PullRequestRun | travis/compile_all.py:182-194 | a run that is neither cron nor release builds exactly the smoke targets with no options, then stops with no bundle, upload or archive |
| Driver.NativePullRequestRun | travis/compile_all.py:185-194 | a native pull request builds kiwix-tools, zim-tools and zimwriterfs, and that is all it does |
| Driver.CronReleaseTargetSteps | travis/compile_all.py:208-224 | on a cron release outside native_dyn, one target is built as deps-only build, marker reset, bundle, upload, release build, marker reset |
| Driver.AndroidReleaseBuilds | travis/compile_all.py:196-224 | an Android release builds libzim and then kiwix-lib, and nothing follows the builds |
| Driver.AndroidCronRelease | travis/compile_all.py:196-224 | an Android cron release performs exactly twelve actions; each target's `deps_{platform}_{target}.tar.gz` bundle is made and uploaded before its release build |
| Driver.BuildStepsOnlyBuild | travis/compile_all.py:208-224 | the build phase only builds, bundles, uploads and resets the marker |
| Driver.BuildStepsPrefix | travis/compile_all.py:208-224 | the actions for the first targets begin the actions for all targets |
| Driver.CronBundlesPrecedeBuilds | travis/compile_all.py:208-214 | on a cron run, every target's deps-only build, marker reset, bundle and upload come right after the earlier targets' actions and before the target's own build |
| Driver.SequenceDestinations | travis/compile_all.py:251-259 | every archive of the post-build steps goes to the directories of its run's kind |
| Driver.ArchivesNeverMix | travis/compile_all.py:77-85 | in a whole run, release archives only go below release directories and nightly archives only to the nightly directory |
| Driver.PostBuildArchivesKnown | travis/compile_all.py:251-259 | every project the dispatch archives is in `BINARIES` |
| Driver.SequenceFailure | travis/compile_all.py:228-259 | when no step archives an unknown project, a failing post-build phase always failed on a version lookup |
| Driver.RunFailsOnlyOnVersions | travis/compile_all.py:228-259 | a run can only fail on a missing `main_project_versions` entry, never on `BINARIES` |
| Driver.DistOutDir | travis/compile_all.py:230-233 | the dist family directory of a target; stated, with the copy's exact destination, by `Driver.DistCopyDestination` |
| Driver.DistInput | travis/compile_all.py:241-248 | the source tarball of a release; stated exactly by `Driver.DistCopyDestination` |
| Driver.DistCopyDestination | travis/compile_all.py:228-250 | a dist copy is one action; it goes to exactly `DIST_KIWIX_ARCHIVES/t` when t is kiwix-lib or kiwix-tools, else to exactly `DIST_ZIM_ARCHIVES/t`, and never below the other; its input is exactly `BUILD_{platform}/t/t-v.tar.gz` for zimwriterfs and `BUILD_{platform}/t/meson-dist/t-v.tar.xz` for the others |
| Driver.FullRunEnds | travis/compile_all.py:208-259 | a cron or release run ends with exactly the actions of its post-build phase, and fails exactly when that phase does |
| Driver.LinuxArchiveStep | travis/compile_all.py:251-253 | archiving a binaries-table project for linux64 packs one tarball, named `{project}_linux64-{date}` in the nightly directory, or `{project}_linux64-{version}` on a release |
| Driver.NativeStaticNightlyPost | travis/compile_all.py:251-253 | after a nightly native_static build come the date-named linux64 tarballs of kiwix-tools, zim-tools and zimwriterfs, in that order, and nothing fails |
| Driver.NativeStaticReleasePost | travis/compile_all.py:251-253 | when the version table has the two tool projects but not zimwriterfs, a native_static release archives kiwix-tools and zim-tools under their versions, then raises `KeyError` for zimwriterfs |
| Driver.Win32StaticPost | travis/compile_all.py:254-255 | after the builds on win32_static comes one zip of kiwix-tools named `kiwix-tools_win32-{postfix}` (the version on a release, the date otherwise) whose members are the flat names `binary.exe` of its binaries in table order; a release without a kiwix-tools version raises `KeyError` instead |
| Driver.ArmAndI586StaticPost | travis/compile_all.py:256-259 | after the builds on armhf_static and i586_static comes one tarball of kiwix-tools named `kiwix-tools_armhf-{postfix}` or `kiwix-tools_i586-{postfix}`; a release without a kiwix-tools version raises `KeyError` instead |
| Driver.ShownTableLibzimCopy | travis/compile_all.py:241-250 | with the shown table, the libzim dist step copies `BUILD_{platform}/libzim/meson-dist/libzim-9.2.3.tar.xz` to `DIST_ZIM_ARCHIVES/libzim` |
| Driver.NativeTargets | travis/compile_all.py:203-204 | native_static and native_dyn resolve to the five-project native list |
| Driver.NativeStaticNightly | travis/compile_all.py:251-253 | a nightly cron run on native_static succeeds; it ends with the date-named linux64 tarballs of kiwix-tools, zim-tools and zimwriterfs, in the nightly directory |
| Driver.ShownTableNativeStaticRelease | travis/compile_all.py:251-253 | with the shown version table, a native_static release archives kiwix-tools 3.7.0 and zim-tools 3.5.0, then raises `KeyError` for zimwriterfs |
| Driver.ShownTableNativeDynRelease | travis/compile_all.py:228-250 | with the shown version table, a native_dyn release copies `libzim-9.2.3.tar.xz` to `DIST_ZIM_ARCHIVES/libzim`, then raises `KeyError` for zimwriterfs |

## Left out

- The bootstrap step (travis/compile_all.py:164-176) is left out because it is network I/O. This step downloads and extracts the base dependency bundle. When that fails, it builds `alldependencies`, bundles it in full and uploads it. `Driver.Run` starts after this step. Only the bootstrap bundle's name and a full bundle's plan (`DepsArchive.MakeDepsArchive` with `full`) are modelled.
- `scp` (travis/compile_all.py:143-145) is left out. An upload is an `Upload` action with its file and destination, and the SSH key path is not modelled.
- `subprocess.check_call` is left out, so a failing build is not modelled. A build is a `Build` action, and every build is taken to succeed.
- Both pugixml copies are added to a full bundle unconditionally (travis/compile_all.py:129-132). A missing copy makes `tar.add` raise; whether the copies exist is not modelled.
- Member names of a dependency bundle are kept as component lists (`DepsPlan.members`); the `str()` form of travis/compile_all.py:139 is not modelled.
- The writing of tar, zip, gzip and LZMA is left out. Only the names, members and containers are planned.
- `mkdir` and its `FileExistsError` handling (travis/compile_all.py:88-90, 148-156, 237-239) are left out. They create directories and decide nothing.
- `unlink` of the install marker (travis/compile_all.py:112, 224) is a `RemoveMarker` action. The case where the marker is missing, in which `unlink` raises, is not modelled.
- The sources of the two APK copies (travis/compile_all.py:260-267) are left out. Only the `CopyApks` action and the condition that triggers it are modelled.
- The `print` progress lines are left out.
- `environ` and `date.today()` are parameters of `Driver.Env`, because the environment and the clock are outside the model. The event type is a plain string, so the `KeyError` of travis/compile_all.py:182 when `TRAVIS_EVENT_TYPE` is unset is not modelled.
- Glob results and existence checks are inputs given to `DepsArchive.DepsInputs`. The model does not explore the file system.
- DepsArchive.MakeDepsArchive: in the code, the manifest file is written before the pugixml lookup that can raise. The model returns only the error and does not record that the file was written.
- kiwixbuild/configs/neutral.py is not part of this model. It holds constant attributes and no logic.
