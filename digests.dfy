/** Content digests, the `algorithm:hex` addresses of manifests and blobs. Only
    `sha256` is recognised; its value is 64 lower-case hexadecimal digits. Two digests
    are equal exactly when algorithm and value are. */
module Digests {
  import opened Wrappers
  import opened Strings

  const SHA256 := "sha256"
  const SHA256_HEX_LENGTH := 64

  datatype Digest = Digest(algorithm: string, hex: string)

  predicate IsHexDigit(c: char) {
    '0' <= c <= '9' || 'a' <= c <= 'f'
  }

  predicate IsHex(s: string) {
    forall i :: 0 <= i < |s| ==> IsHexDigit(s[i])
  }

  /** A digest the parser can produce. */
  predicate ValidDigest(d: Digest) {
    d.algorithm == SHA256 && |d.hex| == SHA256_HEX_LENGTH && IsHex(d.hex)
  }

  /** The canonical `algorithm:hex` text of a digest. */
  function DigestString(d: Digest): string {
    d.algorithm + ":" + d.hex
  }

  /** Parses `algorithm:hex`; every digest it returns is valid. */
  function ParseDigest(s: string): (r: Result<Digest>)
    ensures r.Success? ==> ValidDigest(r.value)
  {
    var parts := Split(s, ':');
    if |parts| != 2 then Failure("cannot parse hash: " + s)
    else if !IsHex(parts[1]) then Failure("found non-hex character in hash: " + parts[1])
    else if parts[0] != SHA256 then Failure("unsupported hash: " + parts[0])
    else if |parts[1]| != SHA256_HEX_LENGTH then Failure("wrong number of hex digits for sha256: " + parts[1])
    else Success(Digest(parts[0], parts[1]))
  }

  /** A parsed digest prints back as exactly the text it was parsed from. */
  lemma ParsePrintsBack(s: string)
    requires ParseDigest(s).Success?
    ensures DigestString(ParseDigest(s).value) == s
  {
    var parts := Split(s, ':');
    JoinSplit(s, ':');
    assert parts[1..] == [parts[1]];
    assert Join(parts, ':') == parts[0] + [':'] + parts[1];
  }

  /** Every valid digest parses back from its canonical text. */
  lemma PrintParsesBack(d: Digest)
    requires ValidDigest(d)
    ensures ParseDigest(DigestString(d)) == Success(d)
  {
    assert forall i :: 0 <= i < |d.hex| ==> d.hex[i] != ':' by {
      forall i | 0 <= i < |d.hex| ensures d.hex[i] != ':' {
        assert IsHexDigit(d.hex[i]);
      }
    }
    SplitWithoutSeparator(d.algorithm, ':');
    SplitWithoutSeparator(d.hex, ':');
    SplitAround(d.algorithm, ':', d.hex);
    assert DigestString(d) == d.algorithm + [':'] + d.hex;
  }
}
