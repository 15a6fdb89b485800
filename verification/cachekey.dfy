/**
 The cache key: the fixed namespace prefix followed by the lower-case hex
 encoding of the md5 digest of the request fingerprint. The digest function
 itself is not modelled; it is a parameter that yields 16 bytes for every
 input string.
 */
module CacheKey {
  import opened Basics
  import opened Hex

  /** KEY_PREFIX. */
  const KeyPrefix: string := "gin:cache:"

  /** A 128-bit md5 digest. */
  type Digest = s: Bytes | |s| == 16 witness [0, 0, 0, 0, 0, 0, 0, 0, 0, 0, 0, 0, 0, 0, 0, 0]

  /** md5String: the digest of `url`, hex encoded. */
  function Md5String(md5: string -> Digest, url: string): (r: string)
    ensures |r| == 32 && IsLowerHex(r)
    ensures Decode(r) == Some(md5(url))
  {
    DecodeEncode(md5(url));
    EncodeToString(md5(url))
  }

  /** The key under which the response for fingerprint `fp` is stored. */
  function Key(md5: string -> Digest, fp: string): (k: string)
    ensures |k| == |KeyPrefix| + 32
    ensures k[..|KeyPrefix|] == KeyPrefix
    ensures IsLowerHex(k[|KeyPrefix|..])
    ensures Decode(k[|KeyPrefix|..]) == Some(md5(fp))
  {
    var h := Md5String(md5, fp);
    assert (KeyPrefix + h)[|KeyPrefix|..] == h;
    KeyPrefix + h
  }

  /** Two fingerprints share a key exactly when they share a digest: the
      prefix and the hex encoding lose nothing, so the only collisions are
      md5's own. */
  lemma SameKeyIffSameDigest(md5: string -> Digest, a: string, b: string)
    ensures Key(md5, a) == Key(md5, b) <==> md5(a) == md5(b)
  {
  }
}
