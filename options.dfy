/**
 * Option resolution: the solc version check and the zod schema that
 * defaults `solc` and `forgeExecutable`.
 */
module PluginOptions {
  import opened Wrappers
  import opened JsonValues
  import opened Errors

  predicate IsDigit(c: char) {
    '0' <= c <= '9'
  }

  predicate AllDigits(s: string) {
    forall k :: 0 <= k < |s| ==> IsDigit(s[k])
  }

  /** The whole of `s` matches \d+(\.\d+){k}. */
  predicate DigitGroups(s: string, k: nat)
    decreases |s|, 1
  {
    |s| > 0 && IsDigit(s[0]) && GroupTail(s[1..], k)
  }

  /** The whole of `s` matches \d*(\.\d+){k}. */
  predicate GroupTail(s: string, k: nat)
    decreases |s|, 0
  {
    if s == [] then k == 0
    else if IsDigit(s[0]) then GroupTail(s[1..], k)
    else s[0] == '.' && k > 0 && DigitGroups(s[1..], k - 1)
  }

  /** The anchored test /^\d+\.\d+\.\d+$/ (JavaScript's \d is [0-9]). */
  predicate IsSolidityVersion(version: string) {
    DigitGroups(version, 2)
  }

  /**
   * Reference reading of the pattern: dots at `i` and `j` cut `version`
   * into three non-empty runs of digits.
   */
  predicate VersionCut(version: string, i: nat, j: nat) {
    && 0 < i && i + 1 < j && j + 1 < |version|
    && version[i] == '.' && version[j] == '.'
    && AllDigits(version[..i]) && AllDigits(version[i + 1..j]) && AllDigits(version[j + 1..])
  }

  /** Number of leading digits of `s`. */
  function LeadingDigits(s: string): (n: nat)
    ensures n <= |s| && AllDigits(s[..n])
    ensures n < |s| ==> !IsDigit(s[n])
  {
    if s == [] || !IsDigit(s[0]) then 0 else 1 + LeadingDigits(s[1..])
  }

  lemma {:induction false} TailAfterDigits(p: string, t: string, k: nat)
    requires AllDigits(p)
    ensures GroupTail(p + t, k) == GroupTail(t, k)
  {
    if p != [] {
      assert (p + t)[0] == p[0] && IsDigit(p[0]);
      assert (p + t)[1..] == p[1..] + t;
      assert AllDigits(p[1..]) by {
        forall k' | 0 <= k' < |p[1..]| ensures IsDigit(p[1..][k']) {
          assert p[1..][k'] == p[k' + 1];
        }
      }
      TailAfterDigits(p[1..], t, k);
    } else {
      assert p + t == t;
    }
  }

  lemma {:induction false} TailWithoutDots(s: string)
    ensures GroupTail(s, 0) == AllDigits(s)
  {
    if s != [] {
      TailWithoutDots(s[1..]);
    }
  }

  /** A tail with at least one group left ends its digits at a dot followed by the rest. */
  lemma TailSplitsAtDot(s: string, k: nat)
    requires k > 0
    ensures var n := LeadingDigits(s);
      GroupTail(s, k) <==> n < |s| && s[n] == '.' && DigitGroups(s[n + 1..], k - 1)
  {
  }

  /** A match of at least two groups ends its first group at a dot. */
  lemma GroupsSplitAtDot(s: string, k: nat)
    requires DigitGroups(s, k + 1)
    ensures var n := LeadingDigits(s);
      0 < n < |s| && s[n] == '.' && DigitGroups(s[n + 1..], k)
  {
    TailSplitsAtDot(s[1..], k + 1);
    var n := LeadingDigits(s[1..]);
    assert LeadingDigits(s) == n + 1;
    assert s[1..][n + 1..] == s[n + 2..];
  }

  /** Every string the matcher accepts cuts into three digit runs. */
  lemma MatchedVersionHasCut(version: string) returns (i: nat, j: nat)
    requires IsSolidityVersion(version)
    ensures VersionCut(version, i, j)
  {
    GroupsSplitAtDot(version, 1);
    i := LeadingDigits(version);
    var rest := version[i + 1..];
    GroupsSplitAtDot(rest, 0);
    var n := LeadingDigits(rest);
    j := i + 1 + n;
    assert rest[n + 1..] == version[j + 1..];
    assert rest[..n] == version[i + 1..j];
    var third := version[j + 1..];
    TailWithoutDots(third[1..]);
    assert third == [third[0]] + third[1..];
  }

  /** Every string that cuts into three digit runs is accepted by the matcher. */
  lemma CutVersionIsMatched(version: string, i: nat, j: nat)
    requires VersionCut(version, i, j)
    ensures IsSolidityVersion(version)
  {
    var third := version[j + 1..];
    TailWithoutDots(third[1..]);
    assert DigitGroups(third, 0);
    var second := version[i + 1..j];
    assert version[i + 1..] == second + version[j..];
    assert version[j..][1..] == third;
    TailAfterDigits(second[1..], version[j..], 1);
    assert second[1..] + version[j..] == version[i + 1..][1..];
    assert DigitGroups(version[i + 1..], 1);
    var first := version[..i];
    assert version[1..] == first[1..] + version[i..];
    assert version[i..][1..] == version[i + 1..];
    TailAfterDigits(first[1..], version[i..], 2);
  }

  /** The matcher accepts exactly the strings that cut into three digit runs. */
  lemma SolidityVersionIffCut(version: string)
    ensures IsSolidityVersion(version) <==> exists i: nat, j: nat :: VersionCut(version, i, j)
  {
    if IsSolidityVersion(version) {
      var i, j := MatchedVersionHasCut(version);
    }
    if exists i: nat, j: nat :: VersionCut(version, i, j) {
      var i: nat, j: nat :| VersionCut(version, i, j);
      CutVersionIsMatched(version, i, j);
    }
  }

  /** Version strings the anchored pattern accepts and rejects. */
  lemma VersionExamples()
    ensures IsSolidityVersion("0.8.17")
    ensures !IsSolidityVersion("8.17") && !IsSolidityVersion("1.2")
    ensures !IsSolidityVersion("abc") && !IsSolidityVersion("0.8.17x") && !IsSolidityVersion("")
  {
  }

  /** The resolved plugin options. */
  datatype Config = Config(solc: string, forgeExecutable: string)

  const DefaultSolc := "0.8.17"
  const DefaultForgeExecutable := "forge"

  /** An absent key stands for `undefined`, which zod's `.default` replaces before validating. */
  function OrDefault(options: map<string, Json>, key: string, default: string): Json {
    if key in options then options[key] else JString(default)
  }

  predicate SolcAccepted(options: map<string, Json>) {
    "solc" !in options || (options["solc"].JString? && IsSolidityVersion(options["solc"].s))
  }

  predicate ForgeExecutableAccepted(options: map<string, Json>) {
    "forgeExecutable" !in options || options["forgeExecutable"].JString?
  }

  /** optionsValidator.parse(options) */
  function ResolveOptions(options: map<string, Json>): (r: Result<Config, PluginError>)
    ensures r.Ok? <==> SolcAccepted(options) && ForgeExecutableAccepted(options)
    ensures r.Err? ==> r.error == InvalidOptions
    ensures r.Ok? ==> IsSolidityVersion(r.value.solc)
    ensures r.Ok? && "solc" !in options ==> r.value.solc == DefaultSolc
    ensures r.Ok? && "solc" in options ==> options["solc"] == JString(r.value.solc)
    ensures r.Ok? && "forgeExecutable" !in options ==> r.value.forgeExecutable == DefaultForgeExecutable
    ensures r.Ok? && "forgeExecutable" in options ==> options["forgeExecutable"] == JString(r.value.forgeExecutable)
  {
    VersionExamples();
    var solc := OrDefault(options, "solc", DefaultSolc);
    var forgeExecutable := OrDefault(options, "forgeExecutable", DefaultForgeExecutable);
    if solc.JString? && IsSolidityVersion(solc.s) && forgeExecutable.JString? then
      Ok(Config(solc.s, forgeExecutable.s))
    else
      Err(InvalidOptions)
  }

  /** Options with neither key resolve to the documented defaults. */
  lemma EmptyOptionsResolveToDefaults()
    ensures ResolveOptions(map[]) == Ok(Config("0.8.17", "forge"))
  {
  }

  /** zod's object schema strips keys it does not know, so they never matter. */
  lemma UnknownOptionsIgnored(options: map<string, Json>, key: string, v: Json)
    requires key != "solc" && key != "forgeExecutable"
    ensures ResolveOptions(options[key := v]) == ResolveOptions(options)
  {
  }
}
