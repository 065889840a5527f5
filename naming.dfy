/** Content-addressed contract names: `TsSolScript_` and 8 hex digits of a keccak digest. */
module Naming {

  predicate IsLowerHex(c: char) {
    '0' <= c <= '9' || 'a' <= c <= 'f'
  }

  /** What ethers.keccak256 returns: "0x" and 64 lower-case hex digits. */
  predicate IsHexDigest(s: string) {
    |s| == 66 && s[0] == '0' && s[1] == 'x' && forall k :: 2 <= k < 66 ==> IsLowerHex(s[k])
  }

  type HexDigest = s: string | IsHexDigest(s)
    witness "0x" + seq(64, _ => '0')

  /** keccak256 of the snippet's UTF-8 bytes; the hash itself is not modelled. */
  type Keccak = string -> HexDigest

  predicate IsLetter(c: char) {
    'a' <= c <= 'z' || 'A' <= c <= 'Z'
  }

  /** A Solidity identifier that starts with a letter. */
  predicate IsContractIdentifier(s: string) {
    |s| > 0 && IsLetter(s[0])
    && forall k :: 0 <= k < |s| ==> IsLetter(s[k]) || '0' <= s[k] <= '9' || s[k] == '_'
  }

  /** String.prototype.slice for non-negative bounds: both are clamped to the length. */
  function JsSlice(s: string, start: nat, end: nat): (r: string)
    ensures start <= end <= |s| ==> r == s[start..end]
    ensures end <= start ==> r == ""
    ensures |r| <= |s|
  {
    var e := if end < |s| then end else |s|;
    var b := if start < e then start else e;
    s[b..e]
  }

  const ScriptPrefix := "TsSolScript_"

  /** The contract name derived from a snippet. */
  function ContractName(keccak: Keccak, snippet: string): (name: string)
    ensures |name| == 20
    ensures name[..12] == ScriptPrefix && name[12..] == keccak(snippet)[2..10]
    ensures forall k :: 12 <= k < 20 ==> IsLowerHex(name[k])
    ensures IsContractIdentifier(name)
  {
    ScriptPrefix + JsSlice(keccak(snippet), 2, 10)
  }

  /** Two snippets get the same name exactly when their digests agree on the eight digits after "0x". */
  lemma SameNameIffSameDigestPrefix(keccak: Keccak, s1: string, s2: string)
    ensures ContractName(keccak, s1) == ContractName(keccak, s2) <==> keccak(s1)[2..10] == keccak(s2)[2..10]
  {
  }
}
