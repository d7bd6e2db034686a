/** The envelope of a protected bundle (protectedbundle/bundle.go): magic, header,
    ciphertext and signature, each length-prefixed. */
module Envelope {
  import opened Common

  type Byte = b: int | 0 <= b < 256
  type Bytes = seq<Byte>

  const MAGIC: Bytes := [0x55, 0x46, 0x50, 0x4B, 0x47, 0x30, 0x31, 0x00]
  const MAX_HEADER := 0x10_0000
  const MAX_FILES := 4096
  const MAX_FILE := 0x2000_0000
  const MAX_CIPHER := 4 * MAX_FILE
  const SIGNATURE_SIZE := 64
  const NONCE_SIZE := 12

  // ----- Big-endian numbers -----

  function Power(k: nat): (p: nat)
    ensures p > 0
  {
    if k == 0 then 1 else 256 * Power(k - 1)
  }

  /** binary.BigEndian on k bytes. */
  function Encode(n: nat, k: nat): (s: Bytes)
    ensures |s| == k
  {
    if k == 0 then [] else Encode(n / 256, k - 1) + [n % 256]
  }

  function Decode(s: Bytes): (n: nat)
    ensures n < Power(|s|)
  {
    if s == [] then 0 else Decode(Init(s)) * 256 + Last(s)
  }

  lemma {:induction false} DecodeEncode(n: nat, k: nat)
    requires n < Power(k)
    ensures Decode(Encode(n, k)) == n
  {
    if k > 0 {
      DecodeEncode(n / 256, k - 1);
      InitOfSnoc(Encode(n / 256, k - 1), n % 256);
    }
  }

  lemma {:induction false} EncodeDecode(s: Bytes)
    ensures Encode(Decode(s), |s|) == s
  {
    if s != [] {
      EncodeDecode(Init(s));
    }
  }

  // ----- Framing -----

  datatype Frame = Frame(header: Bytes, cipher: Bytes, signature: Bytes)

  /** What goes into the authenticated prefix, and what is signed. */
  function Prefix(header: Bytes): Bytes {
    MAGIC + Encode(|header|, 4) + header
  }

  function Signed(header: Bytes, cipher: Bytes): Bytes {
    Prefix(header) + Encode(|cipher|, 8) + cipher
  }

  function Written(f: Frame): Bytes {
    Signed(f.header, f.cipher) + Encode(|f.signature|, 2) + f.signature
  }

  /** The sizes a reader accepts. */
  predicate Fits(f: Frame) {
    0 < |f.header| <= MAX_HEADER && |f.cipher| <= MAX_CIPHER && |f.signature| == SIGNATURE_SIZE
  }

  /** The framing part of Pack: three buffers, each written piece by piece. */
  method WriteFrame(f: Frame) returns (envelope: Bytes)
    ensures envelope == Written(f)
  {
    var prefix: Bytes := [];
    prefix := prefix + MAGIC;
    prefix := prefix + Encode(|f.header|, 4);
    prefix := prefix + f.header;
    var signed: Bytes := [];
    signed := signed + prefix;
    signed := signed + Encode(|f.cipher|, 8);
    signed := signed + f.cipher;
    envelope := [];
    envelope := envelope + signed;
    envelope := envelope + Encode(|f.signature|, 2);
    envelope := envelope + f.signature;
  }

  lemma PowerOf(k: nat)
    requires k <= 4
    ensures Power(0) == 1 && Power(1) == 0x100 && Power(2) == 0x1_0000 && Power(3) == 0x100_0000 && Power(4) == 0x1_0000_0000
  {
  }

  lemma PowerEight()
    ensures Power(8) == 0x1_0000_0000_0000_0000
  {
    PowerOf(4);
    assert Power(5) == 256 * Power(4);
    assert Power(6) == 256 * Power(5);
    assert Power(7) == 256 * Power(6);
  }

  lemma Pieces(a: Bytes, b: Bytes, c: Bytes, d: Bytes, e: Bytes, f: Bytes, g: Bytes)
    ensures var s := a + b + c + d + e + f + g;
            var i, j := |a| + |b|, |a| + |b| + |c|;
            var k := j + |d|;
            var l := k + |e|;
            var m := l + |f|;
            && |s| == m + |g|
            && s[..|a|] == a && s[|a|..i] == b && s[i..j] == c && s[j..k] == d && s[k..l] == e && s[l..m] == f && s[m..] == g
            && s[..j] == a + b + c && s[..l] == a + b + c + d + e
  {
  }

  lemma Joined(s: Bytes, i: nat, j: nat, k: nat, l: nat, m: nat, n: nat)
    requires i <= j <= k <= l <= m <= n <= |s|
    ensures s == s[..i] + s[i..j] + s[j..k] + s[k..l] + s[l..m] + s[m..n] + s[n..]
  {
  }

  /** The pieces of a written frame are where a reader looks for them. */
  lemma FrameLayout(f: Frame)
    requires Fits(f)
    ensures var b := Written(f);
            var h, c := 12 + |f.header|, 20 + |f.header| + |f.cipher|;
            && |b| == c + 2 + SIGNATURE_SIZE
            && b[..8] == MAGIC && Decode(b[8..12]) == |f.header| && b[12..h] == f.header
            && Decode(b[h..h + 8]) == |f.cipher| && b[h + 8..c] == f.cipher
            && Decode(b[c..c + 2]) == SIGNATURE_SIZE && b[c + 2..] == f.signature
            && b[..h] == Prefix(f.header) && b[..c] == Signed(f.header, f.cipher)
  {
    PowerOf(4);
    PowerEight();
    DecodeEncode(|f.header|, 4);
    DecodeEncode(|f.cipher|, 8);
    DecodeEncode(SIGNATURE_SIZE, 2);
    hide Encode, Decode, Power;
    Pieces(MAGIC, Encode(|f.header|, 4), f.header, Encode(|f.cipher|, 8), f.cipher, Encode(|f.signature|, 2), f.signature);
  }

  /** Two frames that fit are written alike only if they are the same. */
  lemma WrittenInjective(f: Frame, g: Frame)
    requires Fits(f) && Fits(g) && Written(f) == Written(g)
    ensures f == g
  {
    hide Written, Encode, Decode;
    FrameLayout(f);
    FrameLayout(g);
  }

  /** The framing part of openEnvelope: an offset moves through the blob, every
      length is checked before it is used, and nothing may be left over. It accepts
      exactly the written frames and gives back what was written. */
  method ParseFrame(blob: Bytes) returns (r: Result<Frame>)
    ensures r.Ok? ==> Fits(r.value) && blob == Written(r.value)
    ensures r.Err? ==> forall f | Fits(f) :: blob != Written(f)
  {
    hide Encode, Decode, Written;
    forall f | Fits(f)
      ensures var b := Written(f);
              var h, c := 12 + |f.header|, 20 + |f.header| + |f.cipher|;
              |b| == c + 2 + SIGNATURE_SIZE && b[..8] == MAGIC && Decode(b[8..12]) == |f.header| &&
              Decode(b[h..h + 8]) == |f.cipher| && Decode(b[c..c + 2]) == SIGNATURE_SIZE
    {
      FrameLayout(f);
    }
    if |blob| < |MAGIC| + 4 + 8 + 2 + SIGNATURE_SIZE || blob[..|MAGIC|] != MAGIC {
      return Err;
    }
    var off := |MAGIC|;
    var headerLen := Decode(blob[off..off + 4]);
    off := off + 4;
    if headerLen <= 0 || headerLen > MAX_HEADER || off + headerLen + 8 > |blob| {
      return Err;
    }
    var headerEnd := off + headerLen;
    var header := blob[off..headerEnd];
    off := headerEnd;
    var cipherLen := Decode(blob[off..off + 8]);
    off := off + 8;
    if cipherLen > |blob| - off || cipherLen > MAX_CIPHER {
      return Err;
    }
    var cipherEnd := off + cipherLen;
    if cipherEnd + 2 > |blob| {
      return Err;
    }
    var sigLen := Decode(blob[cipherEnd..cipherEnd + 2]);
    if sigLen != SIGNATURE_SIZE || cipherEnd + 2 + sigLen != |blob| {
      return Err;
    }
    var f := Frame(header, blob[off..cipherEnd], blob[cipherEnd + 2..]);
    Reassembled(blob, f);
    r := Ok(f);
  }

  /** Re-encoding what was read gives the same bytes, with nothing left over. */
  lemma Reassembled(blob: Bytes, f: Frame)
    requires var h, c := 12 + |f.header|, 20 + |f.header| + |f.cipher|;
             && |blob| == c + 2 + |f.signature|
             && blob[..8] == MAGIC && Decode(blob[8..12]) == |f.header| && blob[12..h] == f.header
             && Decode(blob[h..h + 8]) == |f.cipher| && blob[h + 8..c] == f.cipher
             && Decode(blob[c..c + 2]) == |f.signature| && blob[c + 2..] == f.signature
    ensures blob == Written(f)
  {
    var h, c := 12 + |f.header|, 20 + |f.header| + |f.cipher|;
    EncodeDecode(blob[8..12]);
    EncodeDecode(blob[h..h + 8]);
    EncodeDecode(blob[c..c + 2]);
    hide Encode, Decode;
    Joined(blob, 8, 12, h, h + 8, c, c + 2);
  }

  // ----- The whole envelope -----

  datatype Header = Header(
    version: int, buildId: string, salt: string, nonce: string, fileCount: int, plaintextHash: string)

  /** What lies outside this model: JSON, base64, hashes and ciphers. */
  datatype Crypto = Crypto(
    encodeHeader: Header -> Bytes,
    decodeHeader: Bytes -> Option<Header>,
    encode64: Bytes -> string,
    decode64: string -> Option<Bytes>,
    hexHash: Bytes -> string,
    lower: string -> string,
    derive: (Bytes, Bytes) -> Bytes,
    seal: (Bytes, Bytes, Bytes, Bytes) -> Bytes,
    unseal: (Bytes, Bytes, Bytes, Bytes) -> Option<Bytes>,
    sign: (Bytes, Bytes) -> Bytes,
    verify: (Bytes, Bytes, Bytes) -> bool)

  /** The laws of these: each decoder undoes its encoder, an opened box holds what
      was sealed, a signature verifies under the key's public half, and a hash is
      written in lower case. */
  ghost predicate Lawful(k: Crypto, signingKey: Bytes, verifyKey: Bytes) {
    && (forall h :: k.decodeHeader(k.encodeHeader(h)) == Some(h))
    && (forall b :: k.decode64(k.encode64(b)) == Some(b))
    && (forall key, nonce, plain, extra ::
          k.unseal(key, nonce, k.seal(key, nonce, plain, extra), extra) == Some(plain))
    && (forall data :: k.verify(verifyKey, data, k.sign(signingKey, data)))
    && (forall data :: |k.sign(signingKey, data)| == SIGNATURE_SIZE)
    && (forall b :: k.lower(k.hexHash(b)) == k.hexHash(b))
  }

  predicate HeaderOk(h: Header) {
    h.version == 1 && !IsBlank(h.buildId) && 0 <= h.fileCount <= MAX_FILES
  }

  /** What must hold of a frame for its plaintext to be handed out. */
  predicate Authentic(k: Crypto, master: Bytes, verifyKey: Bytes, f: Frame, h: Header, plain: Bytes) {
    && k.decodeHeader(f.header) == Some(h) && HeaderOk(h)
    && k.verify(verifyKey, Signed(f.header, f.cipher), f.signature)
    && k.decode64(h.salt).Some? && |k.decode64(h.salt).value| == 32
    && k.decode64(h.nonce).Some? && |k.decode64(h.nonce).value| == NONCE_SIZE
    && k.unseal(k.derive(master, k.decode64(h.salt).value), k.decode64(h.nonce).value, f.cipher, Prefix(f.header)) == Some(plain)
    && k.hexHash(plain) == k.lower(h.plaintextHash)
  }

  /** openEnvelope: hands out a plaintext exactly when the blob is a frame that is
      signed, decrypts under its own prefix, and has the hash its header names. */
  method OpenEnvelope(k: Crypto, blob: Bytes, master: Bytes, verifyKey: Bytes) returns (r: Result<(Header, Bytes)>)
    ensures r.Ok? ==>
              exists f :: Fits(f) && blob == Written(f) && Authentic(k, master, verifyKey, f, r.value.0, r.value.1)
    ensures r.Err? ==>
              forall f, h, plain | Fits(f) && blob == Written(f) :: !Authentic(k, master, verifyKey, f, h, plain)
    ensures r.Ok? ==> Guarded(k, blob, verifyKey, r.value.0, r.value.1)
  {
    hide Written, Fits, Signed, Prefix;
    var frame := ParseFrame(blob);
    if frame.Err? {
      return Err;
    }
    var f := frame.value;
    forall g | Fits(g) && blob == Written(g) ensures g == f {
      WrittenInjective(f, g);
    }
    var decoded := k.decodeHeader(f.header);
    if decoded.None? || !HeaderOk(decoded.value) {
      return Err;
    }
    var h := decoded.value;
    if !k.verify(verifyKey, Signed(f.header, f.cipher), f.signature) {
      return Err;
    }
    var salt := k.decode64(h.salt);
    if salt.None? || |salt.value| != 32 {
      return Err;
    }
    var nonce := k.decode64(h.nonce);
    if nonce.None? || |nonce.value| != NONCE_SIZE {
      return Err;
    }
    var plain := k.unseal(k.derive(master, salt.value), nonce.value, f.cipher, Prefix(f.header));
    if plain.None? || k.hexHash(plain.value) != k.lower(h.plaintextHash) {
      return Err;
    }
    assert Authentic(k, master, verifyKey, f, h, plain.value);
    AuthenticGuarded(k, master, verifyKey, f, h, plain.value);
    r := Ok((h, plain.value));
  }

  /** What stands behind a plaintext that is handed out: the last 64 bytes sign all
      that comes before their length, and the plaintext has the hash the header names. */
  predicate Guarded(k: Crypto, blob: Bytes, verifyKey: Bytes, h: Header, plain: Bytes) {
    && |blob| > 66 && blob[..8] == [0x55, 0x46, 0x50, 0x4B, 0x47, 0x30, 0x31, 0x00]
    && k.verify(verifyKey, blob[..|blob| - 66], blob[|blob| - 64..])
    && k.hexHash(plain) == k.lower(h.plaintextHash)
    && h.version == 1 && !IsBlank(h.buildId) && 0 <= h.fileCount <= 4096
  }

  lemma AuthenticGuarded(k: Crypto, master: Bytes, verifyKey: Bytes, f: Frame, h: Header, plain: Bytes)
    requires Fits(f) && Authentic(k, master, verifyKey, f, h, plain)
    ensures Guarded(k, Written(f), verifyKey, h, plain)
  {
    hide Written, Signed, Prefix, Encode, Decode;
    FrameLayout(f);
  }

  /** The key comes from the salt, the nonce has 12 bytes, and what is deciphered is
      bound to everything that stands before the ciphertext's length. */
  lemma AuthenticDeciphers(k: Crypto, master: Bytes, verifyKey: Bytes, f: Frame, h: Header, plain: Bytes)
    requires Fits(f) && Authentic(k, master, verifyKey, f, h, plain)
    ensures var blob := Written(f);
            var end := |blob| - 66;
            var start := end - |f.cipher|;
            && start >= 8 && blob[start..end] == f.cipher
            && k.decode64(h.salt).Some? && |k.decode64(h.salt).value| == 32
            && k.decode64(h.nonce).Some? && |k.decode64(h.nonce).value| == 12
            && k.unseal(k.derive(master, k.decode64(h.salt).value), k.decode64(h.nonce).value, blob[start..end],
                        blob[..start - 8]) == Some(plain)
            && k.decodeHeader(blob[12..start - 8]) == Some(h)
  {
    hide Written, Signed, Prefix, Encode, Decode;
    FrameLayout(f);
  }

  /** The cryptographic part of Pack. */
  function PackedHeader(k: Crypto, buildId: string, files: nat, salt: Bytes, nonce: Bytes, plain: Bytes): Header {
    Header(1, buildId, k.encode64(salt), k.encode64(nonce), files, k.hexHash(plain))
  }

  function PackedFrame(k: Crypto, master: Bytes, signingKey: Bytes, salt: Bytes, nonce: Bytes, h: Header, plain: Bytes): Frame {
    var header := k.encodeHeader(h);
    var cipher := k.seal(k.derive(master, salt), nonce, plain, Prefix(header));
    Frame(header, cipher, k.sign(signingKey, Signed(header, cipher)))
  }

  /** Opening what was packed gives back the same plaintext and header, exactly when
      the ciphertext stays within the limit that only the reader checks. */
  lemma OpenPacked(
    k: Crypto, master: Bytes, signingKey: Bytes, verifyKey: Bytes, buildId: string, files: nat, salt: Bytes, nonce: Bytes,
    plain: Bytes)
    requires Lawful(k, signingKey, verifyKey)
    requires !IsBlank(buildId) && files <= MAX_FILES && |salt| == 32 && |nonce| == NONCE_SIZE
    requires 0 < |k.encodeHeader(PackedHeader(k, buildId, files, salt, nonce, plain))| <= MAX_HEADER
    ensures var h := PackedHeader(k, buildId, files, salt, nonce, plain);
            var f := PackedFrame(k, master, signingKey, salt, nonce, h, plain);
            && (Fits(f) <==> |f.cipher| <= MAX_CIPHER)
            && Authentic(k, master, verifyKey, f, h, plain)
            && forall g, p | Authentic(k, master, verifyKey, f, g, p) :: g == h && p == plain
  {
    hide Signed, Prefix;
    var h := PackedHeader(k, buildId, files, salt, nonce, plain);
    var f := PackedFrame(k, master, signingKey, salt, nonce, h, plain);
    assert k.decodeHeader(k.encodeHeader(h)) == Some(h);
    assert k.decode64(k.encode64(salt)) == Some(salt) && k.decode64(k.encode64(nonce)) == Some(nonce);
    assert k.unseal(k.derive(master, salt), nonce, f.cipher, Prefix(f.header)) == Some(plain);
    assert k.verify(verifyKey, Signed(f.header, f.cipher), f.signature);
  }
}
