/** The CI driver as a whole: from the environment of one run to the ordered
    actions it performs, ending early where a table lookup raises. */
module Driver {
  import opened Wrappers
  import opened Strings
  import opened Paths
  import opened Targets
  import opened BuildCommand
  import opened Archives
  import opened DepsArchive
  import opened ReleaseTag
  import Versions

  /** The environment of one run: the CI platform, the event type, the tag
      when one is set, the home directory, the date of the run and the main
      project versions table the script imports. */
  datatype Env = Env(
    platform: string,
    eventType: string,
    tag: Option<string>,
    home: Path,
    today: string,
    versions: map<string, string>)

  /** What the driver does, in order. */
  datatype Action =
    | Build(invocation: Invocation)              // one kiwix-build run
    | PackDeps(target: string, bundle: Path)     // make_deps_archive(target), partial bundle
    | Upload(file: Path, destination: string)    // scp of a file
    | RemoveMarker(marker: Path)                 // unlink of the install marker
    | CopyDist(source: Path, destinationDir: Path) // copy of a source tarball
    | PackBinaries(plan: ArchivePlan)            // make_archive(project, platform)
    | CopyApks                                   // the Android package copies

  /** The actions performed and, when a lookup raised, the error that ended the run. */
  datatype Outcome = Outcome(actions: seq<Action>, failure: Option<KeyError>)

  const CI_UPLOAD_DESTINATION: string := "nightlybot@download.kiwix.org:/var/www/tmp.kiwix.org/ci/"

  function InstallMarker(env: Env): Path {
    Join(BaseDir(env.home, env.platform), ".install_packages_ok")
  }

  /** The options `make_archive` reads from the run. */
  function ArchiveContext(env: Env, release: bool): Context {
    Context(env.home, env.platform, release, env.today, env.versions)
  }

  // ---------------------------------------------------------------- builds

  function SmokeSteps(env: Env, targets: seq<string>): seq<Action> {
    seq(|targets|, i requires 0 <= i < |targets| => Build(Invocation(targets[i], env.platform, false, false, false)))
  }

  /** A smoke build runs the orchestrator once per target, without options. */
  method SmokeBuilds(env: Env, targets: seq<string>) returns (actions: seq<Action>)
    ensures |actions| == |targets|
    ensures forall i :: 0 <= i < |targets| ==>
              actions[i] == Build(Invocation(targets[i], env.platform, false, false, false))
  {
    actions := [];
    for i := 0 to |targets|
      invariant |actions| == i
      invariant forall k :: 0 <= k < i ==>
                  actions[k] == Build(Invocation(targets[k], env.platform, false, false, false))
    {
      actions := actions + [Build(Invocation(targets[i], env.platform, false, false, false))];
    }
  }

  /** One target of a full build: on a cron run, first the dependencies, then
      the bundling (which begins by resetting the install marker) and the
      upload of the bundle; then the build itself; for a release on
      native_dyn also the source distribution; then the marker reset. */
  function TargetSteps(env: Env, release: bool, target: string): seq<Action> {
    var cron := env.eventType == "cron";
    var bundle := DepsArchivePath(env.home, env.platform, target, false);
    (if cron then
       [Build(Invocation(target, env.platform, true, false, false)),
        RemoveMarker(InstallMarker(env)),
        PackDeps(target, bundle),
        Upload(bundle, CI_UPLOAD_DESTINATION)]
     else [])
    + [Build(Invocation(target, env.platform, false, release, false))]
    + (if release && env.platform == "native_dyn" then [Build(Invocation(target, env.platform, false, true, true))] else [])
    + [RemoveMarker(InstallMarker(env))]
  }

  function BuildSteps(env: Env, release: bool, targets: seq<string>): seq<Action>
    decreases |targets|
  {
    if targets == [] then []
    else BuildSteps(env, release, targets[..|targets| - 1]) + TargetSteps(env, release, targets[|targets| - 1])
  }

  /** The main loop over the targets of a full build. */
  method FullBuilds(env: Env, release: bool, targets: seq<string>) returns (actions: seq<Action>)
    ensures actions == BuildSteps(env, release, targets)
  {
    actions := [];
    var cron := env.eventType == "cron";
    for i := 0 to |targets|
      invariant actions == BuildSteps(env, release, targets[..i])
    {
      var target := targets[i];
      ghost var before := actions;
      if cron {
        actions := actions + [Build(Invocation(target, env.platform, true, false, false))];
        actions := actions + [RemoveMarker(InstallMarker(env))];
        var bundle := DepsArchivePath(env.home, env.platform, target, false);
        actions := actions + [PackDeps(target, bundle)];
        actions := actions + [Upload(bundle, CI_UPLOAD_DESTINATION)];
      }
      actions := actions + [Build(Invocation(target, env.platform, false, release, false))];
      if release && env.platform == "native_dyn" {
        actions := actions + [Build(Invocation(target, env.platform, false, true, true))];
      }
      actions := actions + [RemoveMarker(InstallMarker(env))];
      assert actions == before + TargetSteps(env, release, target);
      assert targets[..i + 1][..i] == targets[..i];
    }
    assert targets[..|targets|] == targets;
  }

  // ------------------------------------------------------------ post-build

  /** One unit of work after the builds. */
  datatype Step =
    | Dist(target: string)                       // copy of a release source tarball
    | Archive(project: string, platform: string) // a public binary archive
    | Apks                                       // the Android packages

  const DIST_PROJECTS: seq<string> := ["kiwix-lib", "kiwix-tools", "libzim", "zim-tools", "zimwriterfs"]

  function DistOutDir(home: Path, target: string): Path {
    if IsKiwixProject(target) then DistKiwixArchivesDir(home) else DistZimArchivesDir(home)
  }

  /** The source tarball of a release: zimwriterfs writes a gzip tarball in
      its build directory, the meson projects an xz tarball under meson-dist. */
  function DistInput(env: Env, target: string, version: string): Path {
    var dir := Join(BaseDir(env.home, env.platform), target);
    if target == "zimwriterfs" then Join(dir, target + "-" + version + ".tar.gz")
    else Join(Join(dir, "meson-dist"), target + "-" + version + ".tar.xz")
  }

  function StepActions(env: Env, release: bool, s: Step): Result<seq<Action>, KeyError> {
    match s
    case Dist(t) =>
      if t in DIST_PROJECTS then
        (match Get(env.versions, t, "main_project_versions")
         case Ok(v) => Ok([CopyDist(DistInput(env, t, v), Join(DistOutDir(env.home, t), t))])
         case Err(e) => Err(e))
      else Ok([])
    case Archive(p, plat) =>
      (match MakeArchive(ArchiveContext(env, release), p, plat)
       case Ok(plan) => Ok([PackBinaries(plan)])
       case Err(e) => Err(e))
    case Apks => Ok([CopyApks])
  }

  /** What follows the builds: the dist tarballs of a native_dyn release, the
      binary archives of the static platforms (each under its public
      platform name), or the Android packages of a run that built the app. */
  function PostBuildSteps(platform: string, release: bool, targets: seq<string>): seq<Step> {
    if release && platform == "native_dyn" then seq(|targets|, i requires 0 <= i < |targets| => Dist(targets[i]))
    else if platform == "native_static" then
      [Archive("kiwix-tools", "linux64"), Archive("zim-tools", "linux64"), Archive("zimwriterfs", "linux64")]
    else if platform == "win32_static" then [Archive("kiwix-tools", "win32")]
    else if platform == "armhf_static" then [Archive("kiwix-tools", "armhf")]
    else if platform == "i586_static" then [Archive("kiwix-tools", "i586")]
    else if StartsWith(platform, "android_") && "kiwix-android" in targets then [Apks]
    else []
  }

  /** The steps run in order; the first that raises ends the run. */
  function Sequence(env: Env, release: bool, steps: seq<Step>): Outcome
    decreases |steps|
  {
    if steps == [] then Outcome([], None)
    else
      var before := Sequence(env, release, steps[..|steps| - 1]);
      if before.failure.Some? then before
      else match StepActions(env, release, steps[|steps| - 1])
        case Ok(acts) => Outcome(before.actions + acts, None)
        case Err(e) => Outcome(before.actions, Some(e))
  }

  /** Once a step has raised, later steps change nothing. */
  lemma {:induction false} SequenceStops(env: Env, release: bool, steps: seq<Step>, i: nat)
    requires i <= |steps|
    requires Sequence(env, release, steps[..i]).failure.Some?
    ensures Sequence(env, release, steps) == Sequence(env, release, steps[..i])
    decreases |steps|
  {
    if i < |steps| {
      var init := steps[..|steps| - 1];
      assert init[..i] == steps[..i];
      SequenceStops(env, release, init, i);
    } else {
      assert steps[..i] == steps;
    }
  }

  /** The post-build loops: each step in turn, stopping at the first error. */
  method RunSteps(env: Env, release: bool, steps: seq<Step>) returns (out: Outcome)
    ensures out == Sequence(env, release, steps)
  {
    out := Outcome([], None);
    var i := 0;
    while i < |steps| && out.failure.None?
      invariant 0 <= i <= |steps|
      invariant out == Sequence(env, release, steps[..i])
    {
      var r := StepActions(env, release, steps[i]);
      if r.Err? {
        out := Outcome(out.actions, Some(r.error));
      } else {
        out := Outcome(out.actions + r.value, None);
      }
      assert steps[..i + 1][..i] == steps[..i];
      i := i + 1;
    }
    if i < |steps| {
      SequenceStops(env, release, steps, i);
    } else {
      assert steps[..i] == steps;
    }
  }

  // ------------------------------------------------------------- the run

  function RunSpec(env: Env): Outcome {
    var release := MakeRelease(env.tag);
    match ResolveTargets(env.platform, env.eventType, release)
    case Smoke(ts) => Outcome(SmokeSteps(env, ts), None)
    case Full(ts) =>
      var post := Sequence(env, release, PostBuildSteps(env.platform, release, ts));
      Outcome(BuildSteps(env, release, ts) + post.actions, post.failure)
  }

  /** One run of the driver after the base dependencies are in place. */
  method Run(env: Env) returns (out: Outcome)
    ensures out == RunSpec(env)
  {
    var release := MakeRelease(env.tag);
    var plan := ResolveTargets(env.platform, env.eventType, release);
    if plan.Smoke? {
      var actions := SmokeBuilds(env, plan.targets);
      return Outcome(actions, None);
    }
    var builds := FullBuilds(env, release, plan.targets);
    var post := RunSteps(env, release, PostBuildSteps(env.platform, release, plan.targets));
    out := Outcome(builds + post.actions, post.failure);
  }

  // ------------------------------------------------------------ properties

  /** A pull-request build runs the orchestrator once per smoke target,
      without options, and stops there: no bundle, upload or archive. */
  lemma PullRequestRun(env: Env)
    requires env.eventType != "cron" && !MakeRelease(env.tag)
    ensures var out := RunSpec(env);
      && out.failure.None?
      && |out.actions| == |SmokeTargets(env.platform)|
      && forall i :: 0 <= i < |out.actions| ==>
           out.actions[i] == Build(Invocation(SmokeTargets(env.platform)[i], env.platform, false, false, false))
  {
  }

  /** A pull request on a native platform builds the three tool projects. */
  lemma NativePullRequestRun(env: Env)
    requires StartsWith(env.platform, "native_") && env.eventType == "pull_request" && !MakeRelease(env.tag)
    ensures RunSpec(env) == Outcome([
      Build(Invocation("kiwix-tools", env.platform, false, false, false)),
      Build(Invocation("zim-tools", env.platform, false, false, false)),
      Build(Invocation("zimwriterfs", env.platform, false, false, false))], None)
  {
    PrefixesExclusive(env.platform);
  }

  /** One target of a cron release outside native_dyn: dependencies, bundle,
      upload, the release build and the marker reset. */
  lemma CronReleaseTargetSteps(env: Env, t: string)
    requires env.eventType == "cron" && env.platform != "native_dyn"
    ensures var bundle := Join(BaseDir(env.home, env.platform), "deps_" + env.platform + "_" + t + ".tar.gz");
      TargetSteps(env, true, t) ==
        [Build(Invocation(t, env.platform, true, false, false)),
         RemoveMarker(InstallMarker(env)),
         PackDeps(t, bundle),
         Upload(bundle, CI_UPLOAD_DESTINATION),
         Build(Invocation(t, env.platform, false, true, false)),
         RemoveMarker(InstallMarker(env))]
  {
  }

  /** An Android release builds libzim then kiwix-lib and nothing follows. */
  lemma AndroidReleaseBuilds(env: Env)
    requires StartsWith(env.platform, "android") && MakeRelease(env.tag)
    ensures env.platform != "native_dyn"
    ensures RunSpec(env) == Outcome(TargetSteps(env, true, "libzim") + TargetSteps(env, true, "kiwix-lib"), None)
  {
    assert env.platform[..7] == "android";
    assert env.platform[0] == 'a' && env.platform[1] == 'n';
    var ts := FullTargets(env.platform, true);
    assert ts == ["libzim", "kiwix-lib"];
    assert "kiwix-android" !in ts;
    assert PostBuildSteps(env.platform, true, ts) == [];
    assert ts[..1] == ["libzim"] && ts[..1][..0] == [] && ts[|ts| - 1] == "kiwix-lib";
    assert BuildSteps(env, true, ts[..1]) == TargetSteps(env, true, "libzim");
  }

  /** A cron release on an Android platform builds libzim and kiwix-lib only;
      each target's dependencies are bundled as `deps_{platform}_{target}.tar.gz`
      and uploaded before its release build. */
  lemma AndroidCronRelease(env: Env)
    requires StartsWith(env.platform, "android") && env.eventType == "cron" && MakeRelease(env.tag)
    ensures var base := BaseDir(env.home, env.platform);
      var zimBundle := Join(base, "deps_" + env.platform + "_libzim.tar.gz");
      var libBundle := Join(base, "deps_" + env.platform + "_kiwix-lib.tar.gz");
      RunSpec(env) == Outcome([
        Build(Invocation("libzim", env.platform, true, false, false)),
        RemoveMarker(InstallMarker(env)),
        PackDeps("libzim", zimBundle),
        Upload(zimBundle, CI_UPLOAD_DESTINATION),
        Build(Invocation("libzim", env.platform, false, true, false)),
        RemoveMarker(InstallMarker(env)),
        Build(Invocation("kiwix-lib", env.platform, true, false, false)),
        RemoveMarker(InstallMarker(env)),
        PackDeps("kiwix-lib", libBundle),
        Upload(libBundle, CI_UPLOAD_DESTINATION),
        Build(Invocation("kiwix-lib", env.platform, false, true, false)),
        RemoveMarker(InstallMarker(env))], None)
  {
    AndroidReleaseBuilds(env);
    CronReleaseTargetSteps(env, "libzim");
    CronReleaseTargetSteps(env, "kiwix-lib");
    assert "deps_" + env.platform + "_" + "libzim" + ".tar.gz" == "deps_" + env.platform + "_libzim.tar.gz";
    assert "deps_" + env.platform + "_" + "kiwix-lib" + ".tar.gz" == "deps_" + env.platform + "_kiwix-lib.tar.gz";
  }

  /** Steps of the build phase only build, bundle, upload and reset. */
  predicate IsBuildPhaseAction(a: Action) {
    a.Build? || a.PackDeps? || a.Upload? || a.RemoveMarker?
  }

  lemma {:induction false} BuildStepsOnlyBuild(env: Env, release: bool, targets: seq<string>)
    ensures forall a :: a in BuildSteps(env, release, targets) ==> IsBuildPhaseAction(a)
    decreases |targets|
  {
    if targets != [] {
      BuildStepsOnlyBuild(env, release, targets[..|targets| - 1]);
    }
  }

  /** The actions of a shorter target list begin the actions of a longer one. */
  lemma {:induction false} BuildStepsPrefix(env: Env, release: bool, targets: seq<string>, j: nat)
    requires j <= |targets|
    ensures BuildSteps(env, release, targets[..j]) <= BuildSteps(env, release, targets)
    decreases |targets|
  {
    if j < |targets| {
      var init := targets[..|targets| - 1];
      assert init[..j] == targets[..j];
      BuildStepsPrefix(env, release, init, j);
    } else {
      assert targets[..j] == targets;
    }
  }

  /** On a cron run, for every target in turn, the dependency-only build, the
      marker reset, the bundle and its upload come before the target's own
      build; earlier targets' actions come first. */
  lemma CronBundlesPrecedeBuilds(env: Env, release: bool, targets: seq<string>, k: nat)
    requires env.eventType == "cron" && k < |targets|
    ensures var before := BuildSteps(env, release, targets[..k]);
      var bundle := DepsArchivePath(env.home, env.platform, targets[k], false);
      var block := [Build(Invocation(targets[k], env.platform, true, false, false)),
                    RemoveMarker(InstallMarker(env)),
                    PackDeps(targets[k], bundle),
                    Upload(bundle, CI_UPLOAD_DESTINATION),
                    Build(Invocation(targets[k], env.platform, false, release, false))];
      && before + block <= BuildSteps(env, release, targets)
      && bundle == Join(BaseDir(env.home, env.platform), "deps_" + env.platform + "_" + targets[k] + ".tar.gz")
  {
    BuildStepsPrefix(env, release, targets, k + 1);
    assert targets[..k + 1][..k] == targets[..k];
  }

  /** Where an archive of a run may go: a release archive below a release
      directory and never the nightly one, a nightly archive in the nightly
      directory and never below a release one. */
  predicate DestinationMatchesRun(env: Env, release: bool, a: Action) {
    a.PackBinaries? ==>
      if release then
        && (IsUnder(a.plan.file, ReleaseKiwixArchivesDir(env.home)) || IsUnder(a.plan.file, ReleaseZimArchivesDir(env.home)))
        && !IsUnder(a.plan.file, NightlyArchivesDir(env.home))
      else
        && a.plan.dir == NightlyArchivesDir(env.home)
        && !IsUnder(a.plan.file, ReleaseKiwixArchivesDir(env.home))
        && !IsUnder(a.plan.file, ReleaseZimArchivesDir(env.home))
  }

  lemma {:induction false} SequenceDestinations(env: Env, release: bool, steps: seq<Step>)
    ensures forall a :: a in Sequence(env, release, steps).actions ==> DestinationMatchesRun(env, release, a)
    decreases |steps|
  {
    if steps != [] {
      SequenceDestinations(env, release, steps[..|steps| - 1]);
      var s := steps[|steps| - 1];
      if s.Archive? && MakeArchive(ArchiveContext(env, release), s.project, s.platform).Ok? {
        ArchiveDestination(ArchiveContext(env, release), s.project, s.platform);
      }
    }
  }

  /** No run mixes release and nightly destinations. */
  lemma ArchivesNeverMix(env: Env)
    ensures forall a :: a in RunSpec(env).actions ==> DestinationMatchesRun(env, MakeRelease(env.tag), a)
  {
    var release := MakeRelease(env.tag);
    match ResolveTargets(env.platform, env.eventType, release)
    case Smoke(ts) =>
    case Full(ts) =>
      BuildStepsOnlyBuild(env, release, ts);
      SequenceDestinations(env, release, PostBuildSteps(env.platform, release, ts));
  }

  /** Every archive step names a project of the binaries table. */
  lemma PostBuildArchivesKnown(platform: string, release: bool, targets: seq<string>)
    ensures forall s :: s in PostBuildSteps(platform, release, targets) && s.Archive? ==> s.project in BINARIES
  {
  }

  lemma {:induction false} SequenceFailure(env: Env, release: bool, steps: seq<Step>)
    requires forall s :: s in steps && s.Archive? ==> s.project in BINARIES
    ensures Sequence(env, release, steps).failure.Some? ==>
              Sequence(env, release, steps).failure.value.table == "main_project_versions"
    decreases |steps|
  {
    if steps != [] {
      var init := steps[..|steps| - 1];
      assert forall s :: s in init ==> s in steps;
      SequenceFailure(env, release, init);
    }
  }

  /** A run only ever fails on a missing project version: no project outside
      the binaries table reaches the archive builder. */
  lemma RunFailsOnlyOnVersions(env: Env)
    ensures RunSpec(env).failure.Some? ==> RunSpec(env).failure.value.table == "main_project_versions"
  {
    var release := MakeRelease(env.tag);
    match ResolveTargets(env.platform, env.eventType, release)
    case Smoke(ts) =>
    case Full(ts) =>
      PostBuildArchivesKnown(env.platform, release, ts);
      SequenceFailure(env, release, PostBuildSteps(env.platform, release, ts));
  }

  /** A release tarball of the kiwix family is copied below the kiwix dist
      directory, any other below the zim one, into a directory named after
      the project; its name carries the project's version. */
  lemma DistCopyDestination(env: Env, release: bool, t: string)
    requires t in DIST_PROJECTS && t in env.versions
    ensures var acts := StepActions(env, release, Dist(t));
      && acts.Ok? && |acts.value| == 1 && acts.value[0].CopyDist?
      && var c := acts.value[0];
         && (IsUnder(c.destinationDir, DistKiwixArchivesDir(env.home)) <==> IsKiwixProject(t))
         && (IsUnder(c.destinationDir, DistZimArchivesDir(env.home)) <==> !IsKiwixProject(t))
         && c.destinationDir.parts[|c.destinationDir.parts| - 1] == t
         && c.source.parts[|c.source.parts| - 1] ==
              t + "-" + env.versions[t] + (if t == "zimwriterfs" then ".tar.gz" else ".tar.xz")
         && c.source == (if t == "zimwriterfs"
                         then Under(BaseDir(env.home, env.platform), [t, t + "-" + env.versions[t] + ".tar.gz"])
                         else Under(BaseDir(env.home, env.platform), [t, "meson-dist", t + "-" + env.versions[t] + ".tar.xz"]))
         && c.destinationDir == (if IsKiwixProject(t) then Under(env.home, ["DIST_KIWIX_ARCHIVES", t])
                                 else Under(env.home, ["DIST_ZIM_ARCHIVES", t]))
  {
    var c := StepActions(env, release, Dist(t)).value[0];
    var n := |env.home.parts|;
    var own := DistOutDir(env.home, t);
    assert c.destinationDir == Join(own, t);
    assert IsUnder(c.destinationDir, own) by { assert c.destinationDir.parts[..n + 1] == own.parts; }
    assert |"DIST_KIWIX_ARCHIVES"| != |"DIST_ZIM_ARCHIVES"|;
    if IsKiwixProject(t) {
      SiblingsDisjoint(env.home, "DIST_KIWIX_ARCHIVES", "DIST_ZIM_ARCHIVES", c.destinationDir);
    } else {
      SiblingsDisjoint(env.home, "DIST_ZIM_ARCHIVES", "DIST_KIWIX_ARCHIVES", c.destinationDir);
    }
  }

  /** The native platforms resolve to the native target list. */
  lemma NativeTargets(platform: string, release: bool)
    requires platform == "native_static" || platform == "native_dyn"
    ensures FullTargets(platform, release) == ["libzim", "zimwriterfs", "zim-tools", "kiwix-lib", "kiwix-tools"]
  {
    assert platform[..7] == "native_";
    assert !StartsWith(platform, ANDROID_PREFIX) by {
      assert platform[..|ANDROID_PREFIX|][0] == 'n' != ANDROID_PREFIX[0];
    }
  }

  /** A cron or release run is its builds followed by its post-build steps. */
  lemma FullRun(env: Env)
    requires env.eventType == "cron" || MakeRelease(env.tag)
    ensures var release := MakeRelease(env.tag);
      var ts := FullTargets(env.platform, release);
      var post := Sequence(env, release, PostBuildSteps(env.platform, release, ts));
      RunSpec(env) == Outcome(BuildSteps(env, release, ts) + post.actions, post.failure)
  {
  }

  /** A cron or release run ends with the actions of its post-build steps and
      fails exactly as they do. */
  lemma FullRunEnds(env: Env)
    requires env.eventType == "cron" || MakeRelease(env.tag)
    ensures var release := MakeRelease(env.tag);
      var post := Sequence(env, release, PostBuildSteps(env.platform, release, FullTargets(env.platform, release)));
      var out := RunSpec(env);
      && out.failure == post.failure
      && |post.actions| <= |out.actions|
      && out.actions[|out.actions| - |post.actions|..] == post.actions
  {
    FullRun(env);
  }

  /** The archive step for a project of the binaries table on linux64: one
      tarball, named after the date in the nightly directory, or after the
      version on a release. */
  lemma LinuxArchiveStep(env: Env, release: bool, project: string)
    requires project in BINARIES && (release ==> project in env.versions)
    ensures var r := StepActions(env, release, Archive(project, "linux64"));
      && r.Ok? && |r.value| == 1 && r.value[0].PackBinaries?
      && r.value[0].plan.name == project + "_linux64-" + (if release then env.versions[project] else env.today)
      && r.value[0].plan.container == TarGz
      && (!release ==> r.value[0].plan.dir == NightlyArchivesDir(env.home))
  {
    var ctx := ArchiveContext(env, release);
    ArchiveNaming(ctx, project, "linux64");
    var postfix := if release then env.versions[project] else env.today;
    assert project + "_" + "linux64" + "-" + postfix == project + "_linux64-" + postfix;
  }

  /** Three steps, in order: the third runs only when the first two succeed. */
  lemma SequenceOfThree(env: Env, release: bool, s1: Step, s2: Step, s3: Step)
    requires StepActions(env, release, s1).Ok? && StepActions(env, release, s2).Ok?
    ensures var before := StepActions(env, release, s1).value + StepActions(env, release, s2).value;
      Sequence(env, release, [s1, s2, s3]) ==
        match StepActions(env, release, s3)
        case Ok(acts) => Outcome(before + acts, None)
        case Err(e) => Outcome(before, Some(e))
  {
    var steps := [s1, s2, s3];
    assert steps[..2] == [s1, s2] && steps[..2][..1] == [s1] && [s1][..0] == [];
    assert Sequence(env, release, [s1]) == Outcome(StepActions(env, release, s1).value, None);
    assert Sequence(env, release, [s1, s2]) ==
      Outcome(StepActions(env, release, s1).value + StepActions(env, release, s2).value, None);
  }

  /** An action that packs an archive of the given name. */
  predicate PacksAs(a: Action, name: string) {
    a.PackBinaries? && a.plan.name == name
  }

  /** The post-build phase of a nightly native_static run: three date-named
      linux64 tarballs in the nightly directory, one per tool project. */
  lemma NativeStaticNightlyPost(env: Env, targets: seq<string>)
    requires env.platform == "native_static"
    ensures var post := Sequence(env, false, PostBuildSteps(env.platform, false, targets));
      && post.failure.None? && |post.actions| == 3
      && PacksAs(post.actions[0], "kiwix-tools" + "_linux64-" + env.today)
      && PacksAs(post.actions[1], "zim-tools" + "_linux64-" + env.today)
      && PacksAs(post.actions[2], "zimwriterfs" + "_linux64-" + env.today)
      && post.actions[2].plan.dir == NightlyArchivesDir(env.home)
      && post.actions[2].plan.container == TarGz
  {
    var s1, s2, s3 := Archive("kiwix-tools", "linux64"), Archive("zim-tools", "linux64"), Archive("zimwriterfs", "linux64");
    assert PostBuildSteps(env.platform, false, targets) == [s1, s2, s3];
    LinuxArchiveStep(env, false, "kiwix-tools");
    LinuxArchiveStep(env, false, "zim-tools");
    LinuxArchiveStep(env, false, "zimwriterfs");
    SequenceOfThree(env, false, s1, s2, s3);
  }

  /** The post-build phase on win32_static: one zip of kiwix-tools named
      `kiwix-tools_win32-{postfix}`, whose members are the binaries as flat
      `.exe` names; a release without a kiwix-tools version raises instead. */
  lemma Win32StaticPost(env: Env, release: bool, targets: seq<string>)
    requires env.platform == "win32_static"
    ensures var post := Sequence(env, release, PostBuildSteps(env.platform, release, targets));
      var binaries := BINARIES["kiwix-tools"];
      if release && "kiwix-tools" !in env.versions then
        post == Outcome([], Some(KeyError("main_project_versions", "kiwix-tools")))
      else
        && post.failure.None? && |post.actions| == 1
        && PacksAs(post.actions[0], "kiwix-tools" + "_win32-" + (if release then env.versions["kiwix-tools"] else env.today))
        && post.actions[0].plan.container == Zip
        && |post.actions[0].plan.entries| == |binaries|
        && forall i :: 0 <= i < |binaries| ==> post.actions[0].plan.entries[i].arcname == binaries[i] + ".exe"
  {
    var steps := [Archive("kiwix-tools", "win32")];
    assert PostBuildSteps(env.platform, release, targets) == steps;
    assert steps[..0] == [];
    var ctx := ArchiveContext(env, release);
    if !(release && "kiwix-tools" !in env.versions) {
      ArchiveNaming(ctx, "kiwix-tools", "win32");
      ArchiveEntries(ctx, "kiwix-tools", "win32");
      var postfix := if release then env.versions["kiwix-tools"] else env.today;
      assert "kiwix-tools" + "_" + "win32" + "-" + postfix == "kiwix-tools" + "_win32-" + postfix;
    }
  }

  /** The post-build phase on armhf_static and i586_static: one tarball of
      kiwix-tools named `kiwix-tools_{armhf|i586}-{postfix}`; a release
      without a kiwix-tools version raises instead. */
  lemma ArmAndI586StaticPost(env: Env, release: bool, targets: seq<string>)
    requires env.platform == "armhf_static" || env.platform == "i586_static"
    ensures var post := Sequence(env, release, PostBuildSteps(env.platform, release, targets));
      var public := if env.platform == "armhf_static" then "armhf" else "i586";
      if release && "kiwix-tools" !in env.versions then
        post == Outcome([], Some(KeyError("main_project_versions", "kiwix-tools")))
      else
        && post.failure.None? && |post.actions| == 1
        && PacksAs(post.actions[0], "kiwix-tools" + "_" + public + "-" + (if release then env.versions["kiwix-tools"] else env.today))
        && post.actions[0].plan.container == TarGz
  {
    var public := if env.platform == "armhf_static" then "armhf" else "i586";
    var steps := [Archive("kiwix-tools", public)];
    assert PostBuildSteps(env.platform, release, targets) == steps;
    assert steps[..0] == [];
    var ctx := ArchiveContext(env, release);
    if !(release && "kiwix-tools" !in env.versions) {
      ArchiveNaming(ctx, "kiwix-tools", public);
    }
  }

  /** A nightly cron run on native_static ends with the three tool archives,
      named after the date, in the nightly directory as tarballs. */
  lemma NativeStaticNightly(env: Env)
    requires env.platform == "native_static" && env.eventType == "cron" && !MakeRelease(env.tag)
    ensures var out := RunSpec(env);
      var n := |out.actions|;
      && out.failure.None? && n >= 3
      && PacksAs(out.actions[n - 3], "kiwix-tools" + "_linux64-" + env.today)
      && PacksAs(out.actions[n - 2], "zim-tools" + "_linux64-" + env.today)
      && PacksAs(out.actions[n - 1], "zimwriterfs" + "_linux64-" + env.today)
      && out.actions[n - 1].plan.dir == NightlyArchivesDir(env.home)
      && out.actions[n - 1].plan.container == TarGz
  {
    var ts := FullTargets(env.platform, false);
    NativeStaticNightlyPost(env, ts);
    FullRunEnds(env);
    var post := Sequence(env, false, PostBuildSteps(env.platform, false, ts));
    var out := RunSpec(env);
    var n := |out.actions|;
    assert out.actions[n - 3..] == post.actions;
    assert out.actions[n - 3] == post.actions[0];
    assert out.actions[n - 2] == post.actions[1];
    assert out.actions[n - 1] == post.actions[2];
  }

  /** The post-build phase of a native_static release whose version table
      holds the two tool projects but not zimwriterfs: kiwix-tools and
      zim-tools are archived under their versions, then zimwriterfs raises. */
  lemma NativeStaticReleasePost(env: Env, targets: seq<string>)
    requires env.platform == "native_static"
    requires "kiwix-tools" in env.versions && "zim-tools" in env.versions && "zimwriterfs" !in env.versions
    ensures var post := Sequence(env, true, PostBuildSteps(env.platform, true, targets));
      && post.failure == Some(KeyError("main_project_versions", "zimwriterfs"))
      && |post.actions| == 2
      && PacksAs(post.actions[0], "kiwix-tools" + "_linux64-" + env.versions["kiwix-tools"])
      && PacksAs(post.actions[1], "zim-tools" + "_linux64-" + env.versions["zim-tools"])
  {
    var s1, s2, s3 := Archive("kiwix-tools", "linux64"), Archive("zim-tools", "linux64"), Archive("zimwriterfs", "linux64");
    assert PostBuildSteps(env.platform, true, targets) == [s1, s2, s3];
    LinuxArchiveStep(env, true, "kiwix-tools");
    LinuxArchiveStep(env, true, "zim-tools");
    SequenceOfThree(env, true, s1, s2, s3);
  }

  /** With the version table shown, a native_static release stops with a
      KeyError for zimwriterfs after archiving kiwix-tools 3.7.0 and
      zim-tools 3.5.0. */
  lemma ShownTableNativeStaticRelease(env: Env)
    requires env.platform == "native_static" && MakeRelease(env.tag)
    requires env.versions == Versions.MAIN_PROJECT_VERSIONS
    ensures var out := RunSpec(env);
      var n := |out.actions|;
      && out.failure == Some(KeyError("main_project_versions", "zimwriterfs"))
      && n >= 2
      && PacksAs(out.actions[n - 2], "kiwix-tools" + "_linux64-" + "3.7.0")
      && PacksAs(out.actions[n - 1], "zim-tools" + "_linux64-" + "3.5.0")
  {
    Versions.DriverProjectsMissingFromTable();
    assert env.versions["kiwix-tools"] == "3.7.0" && env.versions["zim-tools"] == "3.5.0";
    var ts := FullTargets(env.platform, true);
    NativeStaticReleasePost(env, ts);
    FullRunEnds(env);
    var post := Sequence(env, true, PostBuildSteps(env.platform, true, ts));
    var out := RunSpec(env);
    var n := |out.actions|;
    assert out.actions[n - 2..] == post.actions;
    assert out.actions[n - 2] == post.actions[0];
    assert out.actions[n - 1] == post.actions[1];
  }

  /** The source tarball copy of libzim with the shown version table. */
  lemma ShownTableLibzimCopy(env: Env, release: bool)
    requires env.versions == Versions.MAIN_PROJECT_VERSIONS
    ensures StepActions(env, release, Dist("libzim")) ==
      Ok([CopyDist(Join(Join(Join(BaseDir(env.home, env.platform), "libzim"), "meson-dist"), "libzim-9.2.3.tar.xz"),
                   Join(DistZimArchivesDir(env.home), "libzim"))])
  {
    assert !IsKiwixProject("libzim");
    assert Get(env.versions, "libzim", "main_project_versions") == Ok("9.2.3");
    assert "libzim" + "-" + "9.2.3" + ".tar.xz" == "libzim-9.2.3.tar.xz";
  }

  /** With the version table shown, a native_dyn release copies the libzim
      source tarball and then stops with a KeyError for zimwriterfs. */
  lemma ShownTableNativeDynRelease(env: Env)
    requires env.platform == "native_dyn" && MakeRelease(env.tag)
    requires env.versions == Versions.MAIN_PROJECT_VERSIONS
    ensures var out := RunSpec(env);
      && out.failure == Some(KeyError("main_project_versions", "zimwriterfs"))
      && |out.actions| >= 1
      && out.actions[|out.actions| - 1] ==
           CopyDist(Join(Join(Join(BaseDir(env.home, env.platform), "libzim"), "meson-dist"), "libzim-9.2.3.tar.xz"),
                    Join(DistZimArchivesDir(env.home), "libzim"))
  {
    NativeTargets(env.platform, true);
    Versions.DriverProjectsMissingFromTable();
    var ts := FullTargets(env.platform, true);
    var steps := PostBuildSteps(env.platform, true, ts);
    var copy := CopyDist(Join(Join(Join(BaseDir(env.home, env.platform), "libzim"), "meson-dist"), "libzim-9.2.3.tar.xz"),
                         Join(DistZimArchivesDir(env.home), "libzim"));
    assert steps[..2] == [Dist("libzim"), Dist("zimwriterfs")];
    assert steps[..2][..1] == [Dist("libzim")] && steps[..2][..1][..0] == [];
    ShownTableLibzimCopy(env, true);
    assert StepActions(env, true, Dist("zimwriterfs")) == Err(KeyError("main_project_versions", "zimwriterfs"));
    assert Sequence(env, true, steps[..2][..1]) == Outcome([copy], None);
    assert Sequence(env, true, steps[..2]) == Outcome([copy], Some(KeyError("main_project_versions", "zimwriterfs")));
    SequenceStops(env, true, steps, 2);
    FullRunEnds(env);
    var out := RunSpec(env);
    assert out.actions[|out.actions| - 1] == out.actions[|out.actions| - 1..][0];
  }
}
