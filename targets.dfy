/** Which projects a run builds, from the platform name, the event type and the
    release flag. */
module Targets {
  import opened Strings

  /** A pull-request "smoke" build (the run stops after it) or a full build. */
  datatype TargetPlan = Smoke(targets: seq<string>) | Full(targets: seq<string>)

  const ANDROID_PREFIX: string := "android"
  const NATIVE_PREFIX: string := "native_"

  /** The target list of a basic verification build. */
  function SmokeTargets(platform: string): seq<string> {
    if StartsWith(platform, ANDROID_PREFIX) then ["kiwix-android"]
    else if StartsWith(platform, NATIVE_PREFIX) then ["kiwix-tools", "zim-tools", "zimwriterfs"]
    else ["kiwix-tools"]
  }

  /** The target list of a nightly or release build; the Android application
      follows its own release process and is never built for a release. */
  function FullTargets(platform: string, release: bool): seq<string> {
    if StartsWith(platform, ANDROID_PREFIX) then
      if release then ["libzim", "kiwix-lib"] else ["libzim", "kiwix-lib", "kiwix-android"]
    else if StartsWith(platform, NATIVE_PREFIX) then
      ["libzim", "zimwriterfs", "zim-tools", "kiwix-lib", "kiwix-tools"]
    else ["libzim", "kiwix-lib", "kiwix-tools"]
  }

  /** A run that is neither a cron run nor a release is a smoke build. */
  function ResolveTargets(platform: string, eventType: string, release: bool): TargetPlan {
    if eventType != "cron" && !release then Smoke(SmokeTargets(platform))
    else Full(FullTargets(platform, release))
  }

  /** The dispatch written as an ordered rule table, evaluated top to bottom:
      the first rule whose prefix the platform starts with decides. */
  datatype Rule = Rule(prefix: string, targets: seq<string>)

  function FirstMatch(rules: seq<Rule>, fallback: seq<string>, platform: string): seq<string> {
    if rules == [] then fallback
    else if StartsWith(platform, rules[0].prefix) then rules[0].targets
    else FirstMatch(rules[1..], fallback, platform)
  }

  const SMOKE_RULES: seq<Rule> := [
    Rule(ANDROID_PREFIX, ["kiwix-android"]),
    Rule(NATIVE_PREFIX, ["kiwix-tools", "zim-tools", "zimwriterfs"])
  ]

  function FullRules(release: bool): seq<Rule> {
    [ Rule(ANDROID_PREFIX, if release then ["libzim", "kiwix-lib"] else ["libzim", "kiwix-lib", "kiwix-android"]),
      Rule(NATIVE_PREFIX, ["libzim", "zimwriterfs", "zim-tools", "kiwix-lib", "kiwix-tools"]) ]
  }

  /** First match wins: the rule at index i decides when its prefix matches and
      no earlier prefix does. */
  lemma {:induction false} FirstMatchWins(rules: seq<Rule>, fallback: seq<string>, platform: string, i: nat)
    requires i < |rules| && StartsWith(platform, rules[i].prefix)
    requires forall j :: 0 <= j < i ==> !StartsWith(platform, rules[j].prefix)
    ensures FirstMatch(rules, fallback, platform) == rules[i].targets
  {
    if i > 0 {
      assert !StartsWith(platform, rules[0].prefix);
      assert forall j :: 0 <= j < i - 1 ==> rules[1..][j] == rules[j + 1];
      FirstMatchWins(rules[1..], fallback, platform, i - 1);
    }
  }

  /** A platform that matches no rule gets the fallback list. */
  lemma {:induction false} FirstMatchFallback(rules: seq<Rule>, fallback: seq<string>, platform: string)
    requires forall j :: 0 <= j < |rules| ==> !StartsWith(platform, rules[j].prefix)
    ensures FirstMatch(rules, fallback, platform) == fallback
  {
    if rules != [] {
      assert !StartsWith(platform, rules[0].prefix);
      assert forall j :: 0 <= j < |rules| - 1 ==> rules[1..][j] == rules[j + 1];
      FirstMatchFallback(rules[1..], fallback, platform);
    }
  }

  /** The two dispatches are the rule tables android, native_, fallback. */
  lemma DispatchIsRuleTable(platform: string, release: bool)
    ensures SmokeTargets(platform) == FirstMatch(SMOKE_RULES, ["kiwix-tools"], platform)
    ensures FullTargets(platform, release) ==
              FirstMatch(FullRules(release), ["libzim", "kiwix-lib", "kiwix-tools"], platform)
  {
    var full := FullRules(release);
    if StartsWith(platform, ANDROID_PREFIX) {
      FirstMatchWins(SMOKE_RULES, ["kiwix-tools"], platform, 0);
      FirstMatchWins(full, ["libzim", "kiwix-lib", "kiwix-tools"], platform, 0);
    } else if StartsWith(platform, NATIVE_PREFIX) {
      FirstMatchWins(SMOKE_RULES, ["kiwix-tools"], platform, 1);
      FirstMatchWins(full, ["libzim", "kiwix-lib", "kiwix-tools"], platform, 1);
    } else {
      FirstMatchFallback(SMOKE_RULES, ["kiwix-tools"], platform);
      FirstMatchFallback(full, ["libzim", "kiwix-lib", "kiwix-tools"], platform);
    }
  }

  /** No platform name starts with both prefixes, so the order of the two
      rules never changes a result. */
  lemma PrefixesExclusive(platform: string)
    ensures !(StartsWith(platform, ANDROID_PREFIX) && StartsWith(platform, NATIVE_PREFIX))
  {
  }

  /** The smoke build's lists, case by case. */
  lemma SmokeCases(platform: string, eventType: string)
    requires eventType != "cron"
    ensures StartsWith(platform, "android") ==>
              ResolveTargets(platform, eventType, false) == Smoke(["kiwix-android"])
    ensures !StartsWith(platform, "android") && StartsWith(platform, "native_") ==>
              ResolveTargets(platform, eventType, false) == Smoke(["kiwix-tools", "zim-tools", "zimwriterfs"])
    ensures !StartsWith(platform, "android") && !StartsWith(platform, "native_") ==>
              ResolveTargets(platform, eventType, false) == Smoke(["kiwix-tools"])
  {
  }

  /** The full build's lists, case by case: a cron run or a release. */
  lemma FullCases(platform: string, eventType: string, release: bool)
    requires eventType == "cron" || release
    ensures StartsWith(platform, "android") ==>
              ResolveTargets(platform, eventType, release) ==
                Full(if release then ["libzim", "kiwix-lib"] else ["libzim", "kiwix-lib", "kiwix-android"])
    ensures !StartsWith(platform, "android") && StartsWith(platform, "native_") ==>
              ResolveTargets(platform, eventType, release) ==
                Full(["libzim", "zimwriterfs", "zim-tools", "kiwix-lib", "kiwix-tools"])
    ensures !StartsWith(platform, "android") && !StartsWith(platform, "native_") ==>
              ResolveTargets(platform, eventType, release) == Full(["libzim", "kiwix-lib", "kiwix-tools"])
  {
  }

  /** `s` without the occurrences of `x`, order kept. */
  function Without(s: seq<string>, x: string): seq<string> {
    if s == [] then [] else (if s[0] == x then [] else [s[0]]) + Without(s[1..], x)
  }

  lemma {:induction false} WithoutAbsent(s: seq<string>, x: string)
    requires x !in s
    ensures Without(s, x) == s
  {
    if s != [] {
      WithoutAbsent(s[1..], x);
    }
  }

  lemma {:induction false} WithoutAppend(s: seq<string>, y: string, x: string)
    ensures Without(s + [y], x) == Without(s, x) + (if y == x then [] else [y])
  {
    if s == [] {
      assert [y][1..] == [];
    } else {
      assert (s + [y])[1..] == s[1..] + [y];
      WithoutAppend(s[1..], y, x);
    }
  }

  predicate NoDuplicates(s: seq<string>) {
    forall i, j :: 0 <= i < j < |s| ==> s[i] != s[j]
  }

  /** Every full list starts with libzim and names each project once; a release
      builds exactly the nightly list without the Android application. */
  lemma FullTargetsShape(platform: string, release: bool)
    ensures |FullTargets(platform, release)| >= 2 && FullTargets(platform, release)[0] == "libzim"
    ensures NoDuplicates(FullTargets(platform, release))
    ensures release ==> "kiwix-android" !in FullTargets(platform, release)
    ensures FullTargets(platform, true) == Without(FullTargets(platform, false), "kiwix-android")
  {
    if StartsWith(platform, ANDROID_PREFIX) {
      assert FullTargets(platform, false) == ["libzim", "kiwix-lib"] + ["kiwix-android"];
      WithoutAppend(["libzim", "kiwix-lib"], "kiwix-android", "kiwix-android");
      WithoutAbsent(["libzim", "kiwix-lib"], "kiwix-android");
    } else {
      WithoutAbsent(FullTargets(platform, false), "kiwix-android");
    }
  }

  /** What a smoke build checks is also built by the nightly build. */
  lemma SmokeWithinNightly(platform: string)
    ensures forall t :: t in SmokeTargets(platform) ==> t in FullTargets(platform, false)
  {
  }

  /** The dependencies between the main projects (kiwix-lib is the earlier
      name of libkiwix): each pair is (project, what it needs). */
  const DEPENDENCIES: seq<(string, string)> := [
    ("kiwix-lib", "libzim"),
    ("kiwix-tools", "kiwix-lib"),
    ("kiwix-tools", "libzim"),
    ("zim-tools", "libzim")
  ]

  /** Whenever a project and one of its dependencies are both built, the
      dependency is built first. */
  predicate DependenciesFirst(ts: seq<string>) {
    forall d, i, j :: d in DEPENDENCIES && 0 <= i < |ts| && 0 <= j < |ts| && ts[i] == d.0 && ts[j] == d.1 ==> j < i
  }

  lemma FullTargetsRespectDependencies(platform: string, release: bool)
    ensures DependenciesFirst(FullTargets(platform, release))
  {
  }
}
