/** The chunked image seal: header, wrapped data key, and the image in chunks under counter nonces. */
module SealModel {
  import opened Data

  type Byte = b: int | 0 <= b < 256
  type Bytes = seq<Byte>

  datatype Error = BadInput | DecryptFailed
  datatype Result<+T> = Ok(value: T) | Err(error: Error)

  const MAGIC: Bytes := [0x65, 0x6e, 0x63, 0x69, 0x6d, 0x67, 0x3a, 0x76, 0x31]
  const CHUNK: nat := 262_144
  const TAG_LEN: nat := 16
  const PIECE: nat := 262_160
  const WRAP_IV_AT: nat := 9
  const WRAPPED_DEK_AT: nat := 21
  const NONCE_PREFIX_AT: nat := 69
  const HEADER_LEN: nat := 76
  const MIN_SEALED_LEN: nat := 92
  const MAX_CHUNKS: nat := 0xffff_ffff

  // ── The cipher ─────────────────────────────────────────────────────────────

  /** An authenticated cipher over (key, nonce, aad, message). */
  datatype Cipher = Cipher(
    encrypt: (Bytes, Bytes, Bytes, Bytes) -> Bytes,
    decrypt: (Bytes, Bytes, Bytes, Bytes) -> Option<Bytes>)

  function Enc(g: Cipher, key: Bytes, nonce: Bytes, aad: Bytes, msg: Bytes): Bytes {
    g.encrypt(key, nonce, aad, msg)
  }

  function Dec(g: Cipher, key: Bytes, nonce: Bytes, aad: Bytes, ct: Bytes): Option<Bytes> {
    g.decrypt(key, nonce, aad, ct)
  }

  /** Encryption adds a 16-byte tag, and decryption succeeds exactly on encryptions. */
  ghost predicate Sound(g: Cipher) {
    && (forall k, n, a, m :: |Enc(g, k, n, a, m)| == |m| + TAG_LEN)
    && (forall k, n, a, c, m :: Dec(g, k, n, a, c) == Some(m) <==> Enc(g, k, n, a, m) == c)
  }

  /** Such a cipher exists: one that appends sixteen zero bytes. */
  lemma SoundCipherExists() returns (g: Cipher)
    ensures Sound(g)
  {
    g := Cipher((k, n, a, m) => m + ZEROS,
                (k, n, a, c) => if |c| >= TAG_LEN && c[|c| - TAG_LEN..] == ZEROS then Some(c[..|c| - TAG_LEN]) else None);
    forall k, n, a, m ensures |Enc(g, k, n, a, m)| == |m| + TAG_LEN {
    }
    forall k, n, a, c, m ensures Dec(g, k, n, a, c) == Some(m) <==> Enc(g, k, n, a, m) == c {
      assert (m + ZEROS)[|m|..] == ZEROS && (m + ZEROS)[..|m|] == m;
      if |c| >= TAG_LEN {
        assert c == c[..|c| - TAG_LEN] + c[|c| - TAG_LEN..];
      }
    }
  }

  const ZEROS: Bytes := [0, 0, 0, 0, 0, 0, 0, 0, 0, 0, 0, 0, 0, 0, 0, 0]

  // ── Nonces ─────────────────────────────────────────────────────────────────

  function BE16(n: nat): (r: Bytes)
    ensures |r| == 2
  {
    [n / 0x100 % 0x100, n % 0x100]
  }

  function BE32(n: nat): Bytes {
    BE16(n / 0x1_0000) + BE16(n % 0x1_0000)
  }

  /** prefix, 32-bit counter, last-chunk flag. */
  function Nonce(prefix: Bytes, position: nat, last: bool): Bytes {
    prefix + BE32(position) + [if last then 1 else 0]
  }

  lemma BE16Injective(m: nat, n: nat)
    requires m < 0x1_0000 && n < 0x1_0000 && BE16(m) == BE16(n)
    ensures m == n
  {
    assert BE16(m)[0] == BE16(n)[0] && BE16(m)[1] == BE16(n)[1];
    assert m / 0x100 < 0x100 && n / 0x100 < 0x100;
  }

  lemma BE32Injective(m: nat, n: nat)
    requires m <= 0xffff_ffff && n <= 0xffff_ffff && BE32(m) == BE32(n)
    ensures m == n
  {
    hide BE16;
    assert BE32(m)[..2] == BE16(m / 0x1_0000) && BE32(m)[2..] == BE16(m % 0x1_0000);
    assert BE32(n)[..2] == BE16(n / 0x1_0000) && BE32(n)[2..] == BE16(n % 0x1_0000);
    BE16Injective(m / 0x1_0000, n / 0x1_0000);
    BE16Injective(m % 0x1_0000, n % 0x1_0000);
  }

  lemma NonceInjective(prefix: Bytes, i: nat, last: bool, j: nat, last': bool)
    requires i <= 0xffff_ffff && j <= 0xffff_ffff && Nonce(prefix, i, last) == Nonce(prefix, j, last')
    ensures i == j && last == last'
  {
    var n := |prefix|;
    assert BE32(i) == Nonce(prefix, i, last)[n..n + 4];
    assert BE32(j) == Nonce(prefix, j, last')[n..n + 4];
    BE32Injective(i, j);
    assert Nonce(prefix, i, last)[n + 4] == if last then 1 else 0;
    assert Nonce(prefix, j, last')[n + 4] == if last' then 1 else 0;
  }

  /** The nonce byte by byte: seven of prefix, the position with its highest byte first, and 1 for the last
      piece. */
  lemma NonceBytes(prefix: Bytes, position: nat, last: bool)
    requires |prefix| == 7 && position <= 0xffff_ffff
    ensures var n := Nonce(prefix, position, last);
      && |n| == 12 && n[..7] == prefix && n[11] == (if last then 1 else 0)
      && var a: int, b: int, c: int, d: int := n[7], n[8], n[9], n[10]; position == ((a * 256 + b) * 256 + c) * 256 + d
  {
    var high, low := position / 0x1_0000, position % 0x1_0000;
    assert BE32(position) == [high / 0x100 % 0x100, high % 0x100, low / 0x100 % 0x100, low % 0x100];
    assert high / 0x100 < 0x100 && low / 0x100 < 0x100;
  }

  // ── The layout ─────────────────────────────────────────────────────────────

  datatype Piece = Piece(position: nat, last: bool, msg: Bytes)

  /** The image cut into full chunks and one final chunk of at most a chunk, possibly empty. */
  function Pieces(position: nat, pt: Bytes): seq<Piece>
    decreases |pt|
  {
    if |pt| > CHUNK then [Piece(position, false, pt[..CHUNK])] + Pieces(position + 1, pt[CHUNK..])
    else [Piece(position, true, pt)]
  }

  datatype Stream = Stream(cipher: Cipher, key: Bytes, prefix: Bytes, aad: Bytes)

  function EncPiece(s: Stream, p: Piece): Bytes {
    Enc(s.cipher, s.key, Nonce(s.prefix, p.position, p.last), s.aad, p.msg)
  }

  function EncPieces(s: Stream, ps: seq<Piece>): Bytes {
    if ps == [] then [] else EncPiece(s, ps[0]) + EncPieces(s, ps[1..])
  }

  function Header(g: Cipher, kWrap: Bytes, dek: Bytes, iv: Bytes, prefix: Bytes, aad: Bytes): Bytes {
    MAGIC + iv + Enc(g, kWrap, iv, aad, dek) + prefix
  }

  function Sealed(g: Cipher, kWrap: Bytes, dek: Bytes, iv: Bytes, prefix: Bytes, aad: Bytes, pt: Bytes): Bytes {
    Header(g, kWrap, dek, iv, prefix, aad) + EncPieces(Stream(g, dek, prefix, aad), Pieces(0, pt))
  }

  predicate FitsChunkCap(n: nat) {
    n <= MAX_CHUNKS * CHUNK
  }

  // ── Sealing ────────────────────────────────────────────────────────────────

  /** Every call of the stream encryptor stays below its counter limit. */
  method SealWith(g: Cipher, kWrap: Bytes, dek: Bytes, iv: Bytes, prefix: Bytes,
                  userId: Bytes, imageId: Bytes, pt: Bytes)
    returns (r: Result<Bytes>)
    requires |dek| == 32 && |iv| == 12 && |prefix| == 7
    ensures r == if FitsChunkCap(|pt|) then Ok(Sealed(g, kWrap, dek, iv, prefix, Aad(userId, imageId), pt)) else Err(BadInput)
    ensures r.Ok? <==> |pt| <= 0xffff_ffff * 262_144
  {
    if !FitsChunkCap(|pt|) {
      return Err(BadInput);
    }
    var aad := Aad(userId, imageId);
    var s := Stream(g, dek, prefix, aad);
    var out := MAGIC + iv + Enc(g, kWrap, iv, aad, dek) + prefix;
    var rest, position := pt, 0;
    while |rest| > CHUNK
      invariant |rest| + position * CHUNK == |pt|
      invariant out + EncPieces(s, Pieces(position, rest)) == Sealed(g, kWrap, dek, iv, prefix, aad, pt)
      decreases |rest|
    {
      var piece := Piece(position, false, rest[..CHUNK]);
      assert position < MAX_CHUNKS;
      PiecesStep(s, position, rest);
      out := out + EncPiece(s, piece);
      rest, position := rest[CHUNK..], position + 1;
    }
    PiecesEnd(s, position, rest);
    out := out + EncPiece(s, Piece(position, true, rest));
    return Ok(out);
  }

  lemma PiecesStep(s: Stream, position: nat, rest: Bytes)
    requires |rest| > CHUNK
    ensures EncPieces(s, Pieces(position, rest)) ==
      EncPiece(s, Piece(position, false, rest[..CHUNK])) + EncPieces(s, Pieces(position + 1, rest[CHUNK..]))
  {
    assert Pieces(position, rest)[1..] == Pieces(position + 1, rest[CHUNK..]);
  }

  lemma PiecesEnd(s: Stream, position: nat, rest: Bytes)
    requires |rest| <= CHUNK
    ensures EncPieces(s, Pieces(position, rest)) == EncPiece(s, Piece(position, true, rest))
  {
    assert Pieces(position, rest)[1..] == [];
    assert EncPieces(s, []) == [];
  }

  /** Positions run from the start without a gap, and only the last piece is flagged. */
  lemma {:induction false} PiecePositions(position: nat, pt: Bytes)
    ensures var ps := Pieces(position, pt);
      && |ps| >= 1 && CHUNK * (|ps| - 1) <= |pt| <= CHUNK * |ps| && (|ps| > 1 ==> CHUNK * (|ps| - 1) < |pt|)
      && forall i :: 0 <= i < |ps| ==> ps[i].position == position + i && (ps[i].last <==> i == |ps| - 1)
    decreases |pt|
  {
    if |pt| > CHUNK {
      PiecePositions(position + 1, pt[CHUNK..]);
    }
  }

  /** Within one sealed image no two chunks share a nonce, and the counter never leaves 32 bits. */
  lemma NoncesDiffer(prefix: Bytes, pt: Bytes, i: nat, j: nat)
    requires FitsChunkCap(|pt|) && i < j < |Pieces(0, pt)|
    ensures var ps := Pieces(0, pt);
      && ps[j].position < MAX_CHUNKS
      && Nonce(prefix, ps[i].position, ps[i].last) != Nonce(prefix, ps[j].position, ps[j].last)
  {
    var ps := Pieces(0, pt);
    PiecePositions(0, pt);
    if Nonce(prefix, ps[i].position, ps[i].last) == Nonce(prefix, ps[j].position, ps[j].last) {
      NonceInjective(prefix, ps[i].position, ps[i].last, ps[j].position, ps[j].last);
      assert false;
    }
  }

  // ── Opening ────────────────────────────────────────────────────────────────

  function DecChunk(s: Stream, position: nat, last: bool, ct: Bytes): Option<Bytes> {
    Dec(s.cipher, s.key, Nonce(s.prefix, position, last), s.aad, ct)
  }

  /** Decrypt a body piece by piece, refusing an empty final chunk after a full one. */
  function OpenFrom(s: Stream, position: nat, body: Bytes): Option<Bytes>
    decreases |body|
  {
    if |body| > PIECE then
      var front := DecChunk(s, position, false, body[..PIECE]);
      var rest := OpenFrom(s, position + 1, body[PIECE..]);
      if front.Some? && rest.Some? then Some(front.value + rest.value) else None
    else if |body| < TAG_LEN || (|body| == TAG_LEN && position > 0) then None
    else DecChunk(s, position, true, body)
  }

  lemma {:induction false} EncPiecesLength(s: Stream, position: nat, pt: Bytes)
    requires Sound(s.cipher)
    ensures |EncPieces(s, Pieces(position, pt))| == |pt| + TAG_LEN * |Pieces(position, pt)|
    decreases |pt|
  {
    if |pt| > CHUNK {
      PiecesStep(s, position, pt);
      EncPiecesLength(s, position + 1, pt[CHUNK..]);
    } else {
      PiecesEnd(s, position, pt);
    }
  }

  /** A sealed image is 76 bytes of header, the image, and 16 bytes for each piece of 256 KiB begun, at least
      one. */
  lemma SealedLength(g: Cipher, kWrap: Bytes, dek: Bytes, iv: Bytes, prefix: Bytes, aad: Bytes, pt: Bytes)
    requires Sound(g) && |dek| == 32 && |iv| == 12 && |prefix| == 7
    ensures |Sealed(g, kWrap, dek, iv, prefix, aad, pt)| == 76 + |pt| + 16 * if pt == [] then 1 else (|pt| + 262_143) / 262_144
  {
    hide EncPieces, Pieces;
    EncPiecesLength(Stream(g, dek, prefix, aad), 0, pt);
    PiecePositions(0, pt);
    assert |Enc(g, kWrap, iv, aad, dek)| == 48;
  }

  /** Opening inverts sealing, and opens nothing else. */
  lemma {:induction false} OpenFromExactly(s: Stream, position: nat, body: Bytes, pt: Bytes)
    requires Sound(s.cipher)
    ensures OpenFrom(s, position, body) == Some(pt) <==>
      EncPieces(s, Pieces(position, pt)) == body && (position > 0 ==> pt != [])
    decreases |body|
  {
    if |body| > PIECE {
      OpensLong(s, position, body, pt);
    } else {
      OpensShort(s, position, body, pt);
    }
  }

  lemma OpensShort(s: Stream, position: nat, body: Bytes, pt: Bytes)
    requires Sound(s.cipher) && |body| <= PIECE
    ensures OpenFrom(s, position, body) == Some(pt) <==>
      EncPieces(s, Pieces(position, pt)) == body && (position > 0 ==> pt != [])
  {
    EncPiecesLength(s, position, pt);
    PiecePositions(position, pt);
    if |pt| <= CHUNK {
      PiecesEnd(s, position, pt);
    }
  }

  lemma {:induction false} OpensLong(s: Stream, position: nat, body: Bytes, pt: Bytes)
    requires Sound(s.cipher) && |body| > PIECE
    ensures OpenFrom(s, position, body) == Some(pt) <==>
      EncPieces(s, Pieces(position, pt)) == body && (position > 0 ==> pt != [])
    decreases |body|, 0
  {
    var front, rest := body[..PIECE], body[PIECE..];
    if |pt| > CHUNK {
      var first := EncPiece(s, Piece(position, false, pt[..CHUNK]));
      PiecesStep(s, position, pt);
      OpenFromExactly(s, position + 1, rest, pt[CHUNK..]);
      assert pt == pt[..CHUNK] + pt[CHUNK..];
      var others := EncPieces(s, Pieces(position + 1, pt[CHUNK..]));
      assert first + others == body <==> first == front && others == rest by {
        assert (first + others)[..PIECE] == first && (first + others)[PIECE..] == others;
        assert body == front + rest;
      }
      assert first == front <==> DecChunk(s, position, false, front) == Some(pt[..CHUNK]);
    } else {
      PiecesEnd(s, position, pt);
    }
    if OpenFrom(s, position, body) == Some(pt) {
      var a := DecChunk(s, position, false, front).value;
      var b := OpenFrom(s, position + 1, rest).value;
      OpenFromExactly(s, position + 1, rest, b);
      assert pt[..CHUNK] == a && pt[CHUNK..] == b;
    }
  }

  /** Some data key, wrap IV and nonce prefix make sealing produce these very bytes from pt. */
  ghost predicate SealedFrom(g: Cipher, kWrap: Bytes, aad: Bytes, sealed_: Bytes, pt: Bytes) {
    FitsChunkCap(|pt|) && exists dek, iv, prefix ::
      |dek| == 32 && |iv| == 12 && |prefix| == 7 && Sealed(g, kWrap, dek, iv, prefix, aad, pt) == sealed_
  }

  /** Full pieces before the final one, and the final one's length, of a body. */
  function Layout(len: nat): (nat, nat)
    requires len > 0
  {
    if len % PIECE == 0 then (len / PIECE - 1, PIECE) else (len / PIECE, len % PIECE)
  }

  lemma LayoutSplits(len: nat)
    requires len > 0
    ensures var (before, last) := Layout(len); len == before * PIECE + last && 0 < last <= PIECE
  {
  }

  lemma LayoutUnique(len: nat, before: nat, last: nat)
    requires len == before * PIECE + last && 0 < last <= PIECE
    ensures Layout(len) == (before, last)
  {
    LayoutSplits(len);
  }

  /** What opening yields: the key is unwrapped, the layout is within the cap, every piece decrypts. */
  function OpenOf(g: Cipher, kWrap: Bytes, aad: Bytes, sealed_: Bytes): Option<Bytes> {
    if |sealed_| < MIN_SEALED_LEN || sealed_[..WRAP_IV_AT] != MAGIC then None
    else
      var dek := Dec(g, kWrap, sealed_[WRAP_IV_AT..WRAPPED_DEK_AT], aad, sealed_[WRAPPED_DEK_AT..NONCE_PREFIX_AT]);
      if dek.None? || Layout(|sealed_| - HEADER_LEN).0 >= MAX_CHUNKS then None
      else OpenFrom(Stream(g, dek.value, sealed_[NONCE_PREFIX_AT..HEADER_LEN], aad), 0, sealed_[HEADER_LEN..])
  }

  /** The bytes of a sealed image, field by field. */
  lemma HeaderFields(g: Cipher, kWrap: Bytes, dek: Bytes, iv: Bytes, prefix: Bytes, aad: Bytes, body: Bytes, sealed_: Bytes)
    requires Sound(g) && |dek| == 32 && |iv| == 12 && |prefix| == 7
    ensures Header(g, kWrap, dek, iv, prefix, aad) + body == sealed_ <==>
      && |sealed_| >= HEADER_LEN && sealed_[..WRAP_IV_AT] == MAGIC && sealed_[WRAP_IV_AT..WRAPPED_DEK_AT] == iv
      && sealed_[WRAPPED_DEK_AT..NONCE_PREFIX_AT] == Enc(g, kWrap, iv, aad, dek)
      && sealed_[NONCE_PREFIX_AT..HEADER_LEN] == prefix && sealed_[HEADER_LEN..] == body
  {
    var wrapped := Enc(g, kWrap, iv, aad, dek);
    var whole := MAGIC + iv + wrapped + prefix + body;
    assert |wrapped| == 48;
    assert whole[..9] == MAGIC && whole[9..21] == iv && whole[21..69] == wrapped && whole[69..76] == prefix && whole[76..] == body;
    if |sealed_| >= 76 {
      assert sealed_ == sealed_[..9] + sealed_[9..21] + sealed_[21..69] + sealed_[69..76] + sealed_[76..];
    }
  }

  /** An image has one layout, and it is within the cap exactly when the image is. */
  lemma LayoutOfImage(s: Stream, pt: Bytes)
    requires Sound(s.cipher)
    ensures var len := |EncPieces(s, Pieces(0, pt))|;
      len >= TAG_LEN && (Layout(len).0 < MAX_CHUNKS <==> FitsChunkCap(|pt|))
  {
    var n := |Pieces(0, pt)|;
    EncPiecesLength(s, 0, pt);
    PiecePositions(0, pt);
    LayoutUnique(|pt| + TAG_LEN * n, n - 1, |pt| - CHUNK * (n - 1) + TAG_LEN);
  }

  /** Opening accepts exactly the image of sealing. */
  lemma OpenExactly(g: Cipher, kWrap: Bytes, aad: Bytes, sealed_: Bytes, pt: Bytes)
    requires Sound(g)
    ensures OpenOf(g, kWrap, aad, sealed_) == Some(pt) <==> SealedFrom(g, kWrap, aad, sealed_, pt)
  {
    hide OpenFrom, EncPieces, Pieces, Header, FitsChunkCap;
    if SealedFrom(g, kWrap, aad, sealed_, pt) {
      var dek, iv, prefix :| |dek| == 32 && |iv| == 12 && |prefix| == 7 && Sealed(g, kWrap, dek, iv, prefix, aad, pt) == sealed_;
      SealedOpens(g, kWrap, dek, iv, prefix, aad, pt, sealed_);
    }
    if OpenOf(g, kWrap, aad, sealed_) == Some(pt) {
      OpenedWasSealed(g, kWrap, aad, sealed_, pt);
    }
  }

  lemma SealedOpens(g: Cipher, kWrap: Bytes, dek: Bytes, iv: Bytes, prefix: Bytes, aad: Bytes, pt: Bytes, sealed_: Bytes)
    requires Sound(g) && |dek| == 32 && |iv| == 12 && |prefix| == 7 && FitsChunkCap(|pt|)
    requires Sealed(g, kWrap, dek, iv, prefix, aad, pt) == sealed_
    ensures OpenOf(g, kWrap, aad, sealed_) == Some(pt)
  {
    hide OpenFrom, EncPieces, Pieces, Header, FitsChunkCap, Layout;
    var s := Stream(g, dek, prefix, aad);
    var body := EncPieces(s, Pieces(0, pt));
    HeaderFields(g, kWrap, dek, iv, prefix, aad, body, sealed_);
    LayoutOfImage(s, pt);
    OpenFromExactly(s, 0, body, pt);
    assert Dec(g, kWrap, iv, aad, Enc(g, kWrap, iv, aad, dek)) == Some(dek);
  }

  lemma OpenedWasSealed(g: Cipher, kWrap: Bytes, aad: Bytes, sealed_: Bytes, pt: Bytes)
    requires Sound(g) && OpenOf(g, kWrap, aad, sealed_) == Some(pt)
    ensures SealedFrom(g, kWrap, aad, sealed_, pt)
  {
    hide OpenFrom, EncPieces, Pieces, Header, FitsChunkCap, Layout;
    var iv, prefix, body := sealed_[WRAP_IV_AT..WRAPPED_DEK_AT], sealed_[NONCE_PREFIX_AT..HEADER_LEN], sealed_[HEADER_LEN..];
    var dek := Dec(g, kWrap, iv, aad, sealed_[WRAPPED_DEK_AT..NONCE_PREFIX_AT]).value;
    assert Enc(g, kWrap, iv, aad, dek) == sealed_[WRAPPED_DEK_AT..NONCE_PREFIX_AT];
    var s := Stream(g, dek, prefix, aad);
    OpenFromExactly(s, 0, body, pt);
    LayoutOfImage(s, pt);
    HeaderFields(g, kWrap, dek, iv, prefix, aad, body, sealed_);
    assert Sealed(g, kWrap, dek, iv, prefix, aad, pt) == sealed_;
  }

  method Open(g: Cipher, kWrap: Bytes, userId: Bytes, imageId: Bytes, sealed_: Bytes) returns (r: Result<Bytes>)
    requires Sound(g)
    ensures forall pt :: r == Ok(pt) <==> SealedFrom(g, kWrap, Aad(userId, imageId), sealed_, pt)
    ensures r.Err? ==> r.error == DecryptFailed
  {
    hide SealedFrom, OpenFrom;
    var aad := Aad(userId, imageId);
    forall pt ensures OpenOf(g, kWrap, aad, sealed_) == Some(pt) <==> SealedFrom(g, kWrap, aad, sealed_, pt) {
      OpenExactly(g, kWrap, aad, sealed_, pt);
    }
    if |sealed_| < MIN_SEALED_LEN || sealed_[..|MAGIC|] != MAGIC {
      return Err(DecryptFailed);
    }
    var dek := Dec(g, kWrap, sealed_[WRAP_IV_AT..WRAPPED_DEK_AT], aad, sealed_[WRAPPED_DEK_AT..NONCE_PREFIX_AT]);
    if dek.None? {
      return Err(DecryptFailed);
    }
    var s := Stream(g, dek.value, sealed_[NONCE_PREFIX_AT..HEADER_LEN], aad);
    var body := sealed_[HEADER_LEN..];
    var (before, lastLen) := Layout(|body|);
    LayoutSplits(|body|);
    if lastLen < TAG_LEN || (lastLen == TAG_LEN && before > 0) || before >= MAX_CHUNKS {
      NoncanonicalFails(s, body, before, lastLen);
      return Err(DecryptFailed);
    }
    var pt := OpenChunks(s, body, before, lastLen);
    return match pt case Some(m) => Ok(m) case None => Err(DecryptFailed);
  }

  lemma {:induction false} NoncanonicalFrom(s: Stream, position: nat, body: Bytes, before: nat, last: nat)
    requires |body| == before * PIECE + last && 0 < last <= PIECE
    requires last < TAG_LEN || (last == TAG_LEN && position + before > 0)
    ensures OpenFrom(s, position, body).None?
    decreases before
  {
    if before > 0 {
      assert |body[PIECE..]| == (before - 1) * PIECE + last;
      NoncanonicalFrom(s, position + 1, body[PIECE..], before - 1, last);
    }
  }

  lemma NoncanonicalFails(s: Stream, body: Bytes, before: nat, last: nat)
    requires |body| == before * PIECE + last && 0 < last <= PIECE
    ensures last < TAG_LEN || (last == TAG_LEN && before > 0) ==> OpenFrom(s, 0, body).None?
  {
    if last < TAG_LEN || (last == TAG_LEN && before > 0) {
      NoncanonicalFrom(s, 0, body, before, last);
    }
  }

  /** The decryption loop over a canonical body. */
  method OpenChunks(s: Stream, body: Bytes, before: nat, lastLen: nat) returns (r: Option<Bytes>)
    requires |body| == before * PIECE + lastLen && TAG_LEN <= lastLen <= PIECE && (before > 0 ==> lastLen > TAG_LEN)
    ensures r == OpenFrom(s, 0, body)
  {
    var out: Bytes := [];
    assert body[0 * PIECE..] == body;
    PrependNothing(OpenFrom(s, 0, body));
    for i := 0 to before
      invariant OpenFrom(s, 0, body) == Prepend(out, OpenFrom(s, i, body[i * PIECE..]))
    {
      var rest := body[i * PIECE..];
      assert |rest| == (before - i) * PIECE + lastLen > PIECE;
      var pt := DecChunk(s, i, false, body[i * PIECE..(i + 1) * PIECE]);
      assert rest[..PIECE] == body[i * PIECE..(i + 1) * PIECE];
      assert rest[PIECE..] == body[(i + 1) * PIECE..];
      if pt.None? {
        return None;
      }
      PrependTwice(out, pt.value, OpenFrom(s, i + 1, body[(i + 1) * PIECE..]));
      out := out + pt.value;
    }
    return Prepend(out, DecChunk(s, before, true, body[before * PIECE..]));
  }

  function Prepend(front: Bytes, rest: Option<Bytes>): Option<Bytes> {
    if rest.Some? then Some(front + rest.value) else None
  }

  lemma PrependNothing(rest: Option<Bytes>)
    ensures Prepend([], rest) == rest
  {
    if rest.Some? {
      assert [] + rest.value == rest.value;
    }
  }

  lemma PrependTwice(a: Bytes, b: Bytes, rest: Option<Bytes>)
    ensures Prepend(a, Prepend(b, rest)) == Prepend(a + b, rest)
  {
    if rest.Some? {
      assert a + (b + rest.value) == (a + b) + rest.value;
    }
  }

  // ── Identifiers and associated data ────────────────────────────────────────

  predicate IsHex(c: Byte) {
    0x30 <= c <= 0x39 || 0x61 <= c <= 0x66
  }

  predicate IsUserId(s: Bytes) {
    |s| == 36 && forall i :: 0 <= i < 36 ==> if i in {8, 13, 18, 23} then s[i] == 0x2d else IsHex(s[i])
  }

  predicate IsImageId(s: Bytes) {
    1 <= |s| <= 64 && forall c :: c in s ==> 0x30 <= c <= 0x39 || 0x41 <= c <= 0x5a || 0x61 <= c <= 0x7a || c == 0x2d
  }

  /** A lower-case UUID: hexadecimal digits in groups of 8, 4, 4, 4 and 12 with dashes between. */
  lemma UserIdCharacters(s: Bytes)
    ensures IsUserId(s) <==> |s| == 8 + 1 + 4 + 1 + 4 + 1 + 4 + 1 + 12 && forall i :: 0 <= i < |s| ==>
      var c := s[i] as char;
      if i == 8 || i == 13 || i == 18 || i == 23 then c == '-' else '0' <= c <= '9' || 'a' <= c <= 'f'
  {
  }

  /** Up to 64 letters, digits and dashes. */
  lemma ImageIdCharacters(s: Bytes)
    ensures IsImageId(s) <==> 0 < |s| <= 64 && forall i :: 0 <= i < |s| ==>
      var c := s[i] as char;
      '0' <= c <= '9' || 'A' <= c <= 'Z' || 'a' <= c <= 'z' || c == '-'
  {
    forall i | 0 <= i < |s| ensures s[i] in s {
    }
  }

  function Spelled(text: string): Bytes
    requires forall i :: 0 <= i < |text| ==> text[i] < 256 as char
  {
    seq(|text|, i requires 0 <= i < |text| => text[i] as int)
  }

  /** The magic and the extension as they are spelled. */
  lemma MarksAreSpelled()
    ensures MAGIC == Spelled("encimg:v1") && JPG == Spelled(".jpg")
  {
  }

  const JPG: Bytes := [0x2e, 0x6a, 0x70, 0x67]

  function StripPrefix(s: Bytes, p: Bytes): Option<Bytes> {
    if p <= s then Some(s[|p|..]) else None
  }

  function StripSuffix(s: Bytes, p: Bytes): Option<Bytes> {
    if |p| <= |s| && s[|s| - |p|..] == p then Some(s[..|s| - |p|]) else None
  }

  /** The image id of a path that is exactly user id, slash, image id, extension. */
  function ImageIdForPath(userId: Bytes, path: Bytes): (r: Option<Bytes>)
    ensures forall id :: r == Some(id) <==> IsUserId(userId) && IsImageId(id) && path == userId + [0x2f] + id + JPG
  {
    if !IsUserId(userId) then None
    else
      var a := StripPrefix(path, userId);
      var b := if a.Some? then StripPrefix(a.value, [0x2f]) else None;
      var c := if b.Some? then StripSuffix(b.value, JPG) else None;
      PathParts(userId, path);
      if c.Some? && IsImageId(c.value) then c else None
  }

  lemma PathParts(userId: Bytes, path: Bytes)
    ensures forall id :: path == userId + [0x2f] + id + JPG <==>
      && StripPrefix(path, userId).Some? && StripPrefix(StripPrefix(path, userId).value, [0x2f]).Some?
      && StripSuffix(StripPrefix(StripPrefix(path, userId).value, [0x2f]).value, JPG) == Some(id)
  {
    forall id ensures path == userId + [0x2f] + id + JPG <==>
      && StripPrefix(path, userId).Some? && StripPrefix(StripPrefix(path, userId).value, [0x2f]).Some?
      && StripSuffix(StripPrefix(StripPrefix(path, userId).value, [0x2f]).value, JPG) == Some(id)
    {
      var whole := userId + [0x2f] + id + JPG;
      assert whole[|userId|..] == [0x2f] + id + JPG;
      assert whole[|userId| + 1..] == id + JPG;
      assert (id + JPG)[..|id|] == id && (id + JPG)[|id|..] == JPG;
      if path == whole {
        var a := StripPrefix(path, userId).value;
        assert a[1..] == id + JPG;
      }
    }
  }

  /** A path belongs to at most one user and one image. */
  lemma PathIsUnique(userId: Bytes, userId': Bytes, path: Bytes)
    requires ImageIdForPath(userId, path).Some? && ImageIdForPath(userId', path).Some?
    ensures userId == userId' && ImageIdForPath(userId, path) == ImageIdForPath(userId', path)
  {
    var id, id' := ImageIdForPath(userId, path).value, ImageIdForPath(userId', path).value;
    assert path == userId + [0x2f] + id + JPG && path == userId' + [0x2f] + id' + JPG;
    assert path[..36] == userId && path[..36] == userId';
  }

  /** magic, then each id behind its 16-bit length. */
  function Aad(userId: Bytes, imageId: Bytes): Bytes {
    MAGIC + BE16(|userId| % 0x1_0000) + userId + BE16(|imageId| % 0x1_0000) + imageId
  }

  /** The associated data field by field: the magic, then each id behind its length. */
  lemma AadFields(u: Bytes, i: Bytes) returns (m: Bytes, n: Bytes)
    requires |u| < 0x1_0000 && |i| < 0x1_0000
    ensures Aad(u, i) == Spelled("encimg:v1") + m + u + n + i && ReadsAs(m, |u|) && ReadsAs(n, |i|)
  {
    hide BE16, ReadsAs, Spelled, MAGIC, Aad;
    m, n := BE16(|u|), BE16(|i|);
    BE16Reads(|u|);
    BE16Reads(|i|);
    MarksAreSpelled();
    ShortAad(u, i);
  }

  lemma ShortAad(u: Bytes, i: Bytes)
    requires |u| < 0x1_0000 && |i| < 0x1_0000
    ensures Aad(u, i) == MAGIC + BE16(|u|) + u + BE16(|i|) + i
  {
    hide BE16, MAGIC;
    assert |u| % 0x1_0000 == |u| && |i| % 0x1_0000 == |i|;
  }

  /** Two bytes, the high one first. */
  predicate ReadsAs(b: Bytes, n: nat) {
    |b| == 2 && var high: int, low: int := b[0], b[1]; high * 256 + low == n
  }

  lemma BE16Reads(n: nat)
    requires n < 0x1_0000
    ensures ReadsAs(BE16(n), n)
  {
    assert n / 0x100 < 0x100;
  }

  /** The associated data determines both ids, whenever their lengths fit the 16-bit prefix. */
  lemma AadInjective(u: Bytes, i: Bytes, u': Bytes, i': Bytes)
    requires |u| < 0x1_0000 && |u'| < 0x1_0000 && Aad(u, i) == Aad(u', i')
    ensures u == u' && i == i'
  {
    hide BE16;
    var a, a' := Aad(u, i), Aad(u', i');
    assert a[9..11] == BE16(|u|) && a'[9..11] == BE16(|u'|);
    BE16Injective(|u|, |u'|);
    assert a[11..11 + |u|] == u && a'[11..11 + |u'|] == u';
    assert a[13 + |u|..] == i && a'[13 + |u'|..] == i';
  }
}
