/** Release-tag recognition: the driver releases iff the CI tag fully matches
    the pattern `[0-9]+\.[0-9]+\.[0-9]+`. */
module ReleaseTag {
  import opened Wrappers
  import opened Strings

  /** Reference reading of the pattern: the tag splits at its dots into exactly
      three non-empty runs of ASCII digits. */
  predicate ThreeNumbers(s: string) {
    var f := Split(s, '.');
    |f| == 3 && IsNumber(f[0]) && IsNumber(f[1]) && IsNumber(f[2])
  }

  /** An anchored matcher for the pattern, one character at a time: `dots` is
      the number of separators consumed, `inRun` whether the current run of
      digits is non-empty. */
  predicate Matches(s: string, dots: nat, inRun: bool)
    requires dots <= 2
    decreases |s|
  {
    if s == [] then dots == 2 && inRun
    else if IsDigit(s[0]) then Matches(s[1..], dots, true)
    else if s[0] == '.' && inRun && dots < 2 then Matches(s[1..], dots + 1, false)
    else false
  }

  /** `re.fullmatch(r"[0-9]+\.[0-9]+\.[0-9]+", tag) is not None`. */
  predicate IsReleaseTag(tag: string) {
    Matches(tag, 0, false)
  }

  /** The release flag: the tag variable when set, the empty string otherwise. */
  predicate MakeRelease(travisTag: Option<string>) {
    IsReleaseTag(travisTag.GetOr(""))
  }

  /** What the matcher accepts from any intermediate state, in terms of the
      dot-separated fields of the remaining input. */
  lemma {:induction false} MatchesFields(s: string, dots: nat, inRun: bool)
    requires dots <= 2
    ensures Matches(s, dots, inRun) <==>
      (var f := Split(s, '.');
       && dots + |f| == 3
       && AllDigits(f[0]) && (inRun || |f[0]| > 0)
       && forall k :: 1 <= k < |f| ==> IsNumber(f[k]))
    decreases |s|
  {
    if s != [] {
      var f := Split(s, '.');
      var r := Split(s[1..], '.');
      if IsDigit(s[0]) {
        MatchesFields(s[1..], dots, true);
        assert f == [[s[0]] + r[0]] + r[1..];
        assert f[0] == [s[0]] + r[0];
        assert AllDigits(f[0]) <==> AllDigits(r[0]) by {
          assert forall i :: 0 <= i < |r[0]| ==> f[0][i + 1] == r[0][i];
        }
        assert forall k :: 1 <= k < |f| ==> f[k] == r[k];
      } else if s[0] == '.' {
        assert f == [""] + r;
        assert forall k :: 1 <= k < |f| ==> f[k] == r[k - 1];
        if inRun && dots < 2 {
          MatchesFields(s[1..], dots + 1, false);
          assert (forall k :: 1 <= k < |f| ==> IsNumber(f[k])) <==>
                 (IsNumber(r[0]) && forall k :: 1 <= k < |r| ==> IsNumber(r[k])) by {
            assert forall k :: 0 <= k < |r| ==> f[k + 1] == r[k];
          }
        }
      } else {
        assert f[0][0] == s[0];
      }
    }
  }

  /** The matcher accepts exactly the tags made of three dot-separated numbers. */
  lemma ReleaseTagIsThreeNumbers(tag: string)
    ensures IsReleaseTag(tag) <==> ThreeNumbers(tag)
  {
    MatchesFields(tag, 0, false);
  }

  /** Any three numbers joined by dots form a release tag. */
  lemma ReleaseTagOfNumbers(major: string, minor: string, patch: string)
    requires IsNumber(major) && IsNumber(minor) && IsNumber(patch)
    ensures IsReleaseTag(major + "." + minor + "." + patch)
  {
    var tag := major + "." + minor + "." + patch;
    assert tag == major + ['.'] + (minor + ['.'] + patch);
    SplitAfterField(major, minor + ['.'] + patch, '.');
    SplitAfterField(minor, patch, '.');
    SplitWithoutSeparator(patch, '.');
    ReleaseTagIsThreeNumbers(tag);
  }

  /** A run without a tag (an empty tag) is never a release. */
  lemma NoTagNoRelease()
    ensures !MakeRelease(None)
    ensures !MakeRelease(Some(""))
  {
  }
}
