/**
 * Password digests (src/helpers/digest.rs): PBKDF2 with HMAC-SHA256 and
 * 1000 iterations, salted with the DIGEST_SALT setting followed by the
 * username, producing a 32-byte credential.
 */
module Digest {
  import opened Primitives
  import opened Utf8

  /**
   * PBKDF2 (section 5.2 of RFC 8018) with a fixed PRF, left uninterpreted:
   * `stream(c, salt, secret, i)` is byte `i` of the key derived with `c`
   * iterations. The key of length n is T_1 || T_2 || ... cut to n bytes,
   * so byte i does not depend on the requested length.
   */
  type Pbkdf2Stream = (nat, bytes, bytes, nat) -> u8

  const PBKDF2_ITER: nat := 1000
  const DIGEST_CREDENTIAL_LEN: nat := 32

  /** What the digest functions read from outside: the DIGEST_SALT setting and PBKDF2. */
  datatype DigestEnv = DigestEnv(digestSalt: string, pbkdf2: Pbkdf2Stream)

  /** The first `len` bytes PBKDF2 derives from `salt` and `secret`. */
  function DerivedKey(pbkdf2: Pbkdf2Stream, c: nat, salt: bytes, secret: bytes, len: nat): bytes
  {
    seq(len, i requires 0 <= i < len => pbkdf2(c, salt, secret, i))
  }

  /** A shorter derived key is a prefix of a longer one from the same inputs. */
  lemma DerivedKeyPrefix(pbkdf2: Pbkdf2Stream, c: nat, salt: bytes, secret: bytes, m: nat, n: nat)
    requires m <= n
    ensures |DerivedKey(pbkdf2, c, salt, secret, n)| == n
    ensures DerivedKey(pbkdf2, c, salt, secret, m) == DerivedKey(pbkdf2, c, salt, secret, n)[..m]
  {
  }

  /** The salt for `username`: the DIGEST_SALT bytes, then the username bytes. */
  function SaltOf(digestSalt: string, username: string): bytes
  {
    AsBytes(digestSalt) + AsBytes(username)
  }

  /** The salt is as long as its two parts, starts with the setting and ends with the name. */
  lemma SaltLayout(digestSalt: string, username: string)
    ensures |SaltOf(digestSalt, username)| == |AsBytes(digestSalt)| + |AsBytes(username)|
    ensures SaltOf(digestSalt, username)[..|AsBytes(digestSalt)|] == AsBytes(digestSalt)
    ensures SaltOf(digestSalt, username)[|AsBytes(digestSalt)|..] == AsBytes(username)
  {
  }

  /** Different usernames get different salts under the same setting. */
  lemma SaltInjective(digestSalt: string, u1: string, u2: string)
    requires SaltOf(digestSalt, u1) == SaltOf(digestSalt, u2)
    ensures u1 == u2
  {
    var k := |AsBytes(digestSalt)|;
    assert AsBytes(u1) == SaltOf(digestSalt, u1)[k..] == SaltOf(digestSalt, u2)[k..] == AsBytes(u2);
    AsBytesInjective(u1, u2);
  }

  /** Copies `src` into `buf` from index `at` on (one `Vec::extend`). */
  method Extend(buf: array<u8>, at: nat, src: bytes)
    requires at + |src| <= buf.Length
    modifies buf
    ensures forall j :: 0 <= j < buf.Length && !(at <= j < at + |src|) ==> buf[j] == old(buf[j])
    ensures forall j :: 0 <= j < |src| ==> buf[at + j] == src[j]
  {
    var i := 0;
    while i < |src|
      invariant 0 <= i <= |src|
      invariant forall j :: 0 <= j < buf.Length && !(at <= j < at + i) ==> buf[j] == old(buf[j])
      invariant forall j :: 0 <= j < i ==> buf[at + j] == src[j]
    {
      buf[at + i] := src[i];
      i := i + 1;
    }
  }

  /** `salt`: a buffer of exactly the needed capacity, extended with the setting, then the name. */
  method Salt(digestSalt: string, username: string) returns (salt: bytes)
    ensures salt == SaltOf(digestSalt, username)
  {
    var prefix := AsBytes(digestSalt);
    var name := AsBytes(username);
    var buf := new u8[|prefix| + |name|];
    Extend(buf, 0, prefix);
    Extend(buf, |prefix|, name);
    salt := buf[..];
    assert salt[..|prefix|] == prefix;
    assert salt[|prefix|..] == name;
    assert salt == salt[..|prefix|] + salt[|prefix|..];
  }

  /** `pbkdf2::derive`: fills `out` with the first `out.Length` bytes of the derived key. */
  method Derive(pbkdf2: Pbkdf2Stream, c: nat, salt: bytes, secret: bytes, out: array<u8>)
    modifies out
    ensures out[..] == DerivedKey(pbkdf2, c, salt, secret, out.Length)
  {
    for i := 0 to out.Length
      invariant forall j :: 0 <= j < i ==> out[j] == pbkdf2(c, salt, secret, j)
    {
      out[i] := pbkdf2(c, salt, secret, i);
    }
  }

  /** The stored credential for `username` and `password`. */
  function DigestOf(env: DigestEnv, username: string, password: string): bytes
  {
    DerivedKey(env.pbkdf2, PBKDF2_ITER, SaltOf(env.digestSalt, username), AsBytes(password), DIGEST_CREDENTIAL_LEN)
  }

  /** `digest_password`: derive into a zeroed 32-byte buffer and copy it out. */
  method DigestPassword(env: DigestEnv, username: string, password: string) returns (credential: bytes)
    ensures |credential| == DIGEST_CREDENTIAL_LEN
    ensures credential == DigestOf(env, username, password)
  {
    var salt := Salt(env.digestSalt, username);
    var buf := new u8[DIGEST_CREDENTIAL_LEN];
    Derive(env.pbkdf2, PBKDF2_ITER, salt, AsBytes(password), buf);
    credential := buf[..];
  }

  /**
   * `verify_password`: derive as many bytes as are stored, with the same
   * PRF, iteration count and salt as `digest_password`, and compare. ring's
   * `pbkdf2::verify` refuses an empty stored key before deriving anything.
   */
  function VerifyPassword(env: DigestEnv, username: string, stored: bytes, attempted: string): (ok: bool)
    ensures ok ==> |stored| > 0
    ensures ok <==> |stored| > 0 && forall i :: 0 <= i < |stored| ==>
      stored[i] == env.pbkdf2(PBKDF2_ITER, SaltOf(env.digestSalt, username), AsBytes(attempted), i)
  {
    |stored| > 0 && DerivedKey(env.pbkdf2, PBKDF2_ITER, SaltOf(env.digestSalt, username), AsBytes(attempted), |stored|) == stored
  }

  /** A digest verifies against the password it was made from. */
  lemma DigestVerifies(env: DigestEnv, username: string, password: string)
    ensures |DigestOf(env, username, password)| == DIGEST_CREDENTIAL_LEN
    ensures VerifyPassword(env, username, DigestOf(env, username, password), password)
  {
  }

  /** An empty stored digest verifies no attempt at all. */
  lemma EmptyDigestVerifiesNothing(env: DigestEnv, username: string, attempted: string)
    ensures !VerifyPassword(env, username, [], attempted)
  {
  }

  /**
   * The one hypothesis about PBKDF2 the lemmas below need: two given inputs,
   * if they differ, give different 32-byte keys. It is asked of one pair at a
   * time, never of all inputs at once (which no 32-byte function can meet).
   */
  ghost predicate NoCollision(pbkdf2: Pbkdf2Stream, c: nat, salt1: bytes, secret1: bytes, salt2: bytes, secret2: bytes)
  {
    (salt1 != salt2 || secret1 != secret2) ==>
      DerivedKey(pbkdf2, c, salt1, secret1, DIGEST_CREDENTIAL_LEN) != DerivedKey(pbkdf2, c, salt2, secret2, DIGEST_CREDENTIAL_LEN)
  }

  /** The hypothesis can be met: for any two inputs some keystream keeps them apart. */
  lemma NoCollisionAttainable(c: nat, salt1: bytes, secret1: bytes, salt2: bytes, secret2: bytes)
    returns (pbkdf2: Pbkdf2Stream)
    ensures NoCollision(pbkdf2, c, salt1, secret1, salt2, secret2)
  {
    pbkdf2 := (c': nat, salt: bytes, secret: bytes, i: nat) => if salt == salt1 && secret == secret1 then 1 else 0;
    if salt1 != salt2 || secret1 != secret2 {
      assert DerivedKey(pbkdf2, c, salt1, secret1, DIGEST_CREDENTIAL_LEN)[0] == 1;
      assert DerivedKey(pbkdf2, c, salt2, secret2, DIGEST_CREDENTIAL_LEN)[0] == 0;
    }
  }

  /**
   * A digest verifies exactly its own password, when PBKDF2 does not map the
   * attempted and the digested password to the same key under this salt.
   */
  lemma VerifiesOnlyOwnPassword(env: DigestEnv, username: string, password: string, attempted: string)
    requires var salt := SaltOf(env.digestSalt, username);
      NoCollision(env.pbkdf2, PBKDF2_ITER, salt, AsBytes(attempted), salt, AsBytes(password))
    ensures VerifyPassword(env, username, DigestOf(env, username, password), attempted) <==> attempted == password
  {
    if VerifyPassword(env, username, DigestOf(env, username, password), attempted) {
      var salt := SaltOf(env.digestSalt, username);
      assert DerivedKey(env.pbkdf2, PBKDF2_ITER, salt, AsBytes(attempted), DIGEST_CREDENTIAL_LEN)
          == DerivedKey(env.pbkdf2, PBKDF2_ITER, salt, AsBytes(password), DIGEST_CREDENTIAL_LEN);
      AsBytesInjective(attempted, password);
    }
  }

  /**
   * A digest is bound to the username it was salted with: checked under any
   * other username, even the right password fails, when PBKDF2 does not map
   * the two salts to the same key for this password.
   */
  lemma DigestBoundToUsername(env: DigestEnv, salted: string, checked: string, password: string)
    requires NoCollision(env.pbkdf2, PBKDF2_ITER, SaltOf(env.digestSalt, checked), AsBytes(password),
                         SaltOf(env.digestSalt, salted), AsBytes(password))
    ensures VerifyPassword(env, checked, DigestOf(env, salted, password), password) <==> checked == salted
  {
    if VerifyPassword(env, checked, DigestOf(env, salted, password), password) {
      var secret := AsBytes(password);
      assert DerivedKey(env.pbkdf2, PBKDF2_ITER, SaltOf(env.digestSalt, checked), secret, DIGEST_CREDENTIAL_LEN)
          == DerivedKey(env.pbkdf2, PBKDF2_ITER, SaltOf(env.digestSalt, salted), secret, DIGEST_CREDENTIAL_LEN);
      SaltInjective(env.digestSalt, checked, salted);
    }
  }
}
