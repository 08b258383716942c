/** The command line of one kiwix-build invocation. */
module BuildCommand {
  import opened Wrappers

  /** What one call of the build orchestrator asks for. */
  datatype Invocation = Invocation(
    target: string,
    platform: string,
    buildDepsOnly: bool,
    makeRelease: bool,
    makeDist: bool)

  const DEPS_ONLY_FLAG: string := "--build-deps-only"
  const RELEASE_FLAG: string := "--make-release"
  const DIST_FLAG: string := "--make-dist"

  /** Reads an optional flag at the head of `args`. */
  function TakeFlag(args: seq<string>, flag: string): (bool, seq<string>) {
    if |args| > 0 && args[0] == flag then (true, args[1..]) else (false, args)
  }

  /** Reads a command line of the driver's shape back into its invocation:
      the fixed words in their places, then each optional flag at most once,
      in the order deps-only, release, dist, and nothing after them. */
  function Parse(command: seq<string>): Option<Invocation> {
    if |command| >= 5 && command[0] == "kiwix-build" && command[2] == "--hide-progress"
       && command[3] == "--target-platform"
    then
      var (deps, rest1) := TakeFlag(command[5..], DEPS_ONLY_FLAG);
      var (release, rest2) := TakeFlag(rest1, RELEASE_FLAG);
      var (dist, rest3) := TakeFlag(rest2, DIST_FLAG);
      if rest3 == [] then Some(Invocation(command[1], command[4], deps, release, dist)) else None
    else None
  }

  /** Two command lines that read back as the same invocation are equal: the
      parse determines the command line completely. */
  lemma ParseDeterminesCommand(c1: seq<string>, c2: seq<string>)
    requires Parse(c1).Some? && Parse(c1) == Parse(c2)
    ensures c1 == c2
  {
    var inv := Parse(c1).value;
    var t1 := c1[5..];
    var t2 := c2[5..];
    assert t1 == (if inv.buildDepsOnly then [DEPS_ONLY_FLAG] else []) +
                 (if inv.makeRelease then [RELEASE_FLAG] else []) +
                 (if inv.makeDist then [DIST_FLAG] else []);
    assert t2 == (if inv.buildDepsOnly then [DEPS_ONLY_FLAG] else []) +
                 (if inv.makeRelease then [RELEASE_FLAG] else []) +
                 (if inv.makeDist then [DIST_FLAG] else []);
    assert c1 == c1[..5] + t1 && c2 == c2[..5] + t2;
    assert c1[..5] == c2[..5];
  }

  /** `run_kiwix_build`'s command: the fixed words, then the flags that are set. */
  method RunKiwixBuild(inv: Invocation) returns (command: seq<string>)
    ensures Parse(command) == Some(inv)
    ensures command[..5] == ["kiwix-build", inv.target, "--hide-progress", "--target-platform", inv.platform]
    ensures |command| == 5 + (if inv.buildDepsOnly then 1 else 0) + (if inv.makeRelease then 1 else 0)
                            + (if inv.makeDist then 1 else 0)
    ensures DEPS_ONLY_FLAG in command[5..] <==> inv.buildDepsOnly
    ensures RELEASE_FLAG in command[5..] <==> inv.makeRelease
    ensures DIST_FLAG in command[5..] <==> inv.makeDist
  {
    command := ["kiwix-build"];
    command := command + [inv.target];
    command := command + ["--hide-progress"];
    command := command + ["--target-platform", inv.platform];
    ghost var fixed := command;
    if inv.buildDepsOnly {
      command := command + [DEPS_ONLY_FLAG];
    }
    if inv.makeRelease {
      command := command + [RELEASE_FLAG];
    }
    if inv.makeDist {
      command := command + [DIST_FLAG];
    }
    assert command[..5] == fixed;
  }
}
