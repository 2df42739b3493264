/** The framed container of encrypted backups, over an ideal authenticated cipher. */
module Backup {
  import opened InsertBatching
  import opened Texts

  type Data = seq<byte>

  /** Authenticated encryption under one key: `open` is `None` when authentication fails. */
  datatype Cipher = Cipher(seal: (Data, Data) -> Data, open: (Data, Data) -> Option<Data>)

  const MAGIC: Data := [79, 84, 83, 81, 66, 65, 75, 49]
  const VERSION_1: byte := 1
  const VERSION: byte := 2
  const NONCE_LEN: nat := 12
  const STREAM_CHUNK_BYTES: nat := 65536
  const GCM_TAG_LEN: nat := 16
  const MAX_FRAME_CIPHERTEXT: nat := STREAM_CHUNK_BYTES + GCM_TAG_LEN
  const FRAME_LIMIT: nat := 0x1_0000_0000

  /** What was sealed under a nonce opens under that nonce, and only under it. */
  ghost predicate Ideal(cipher: Cipher) {
    forall n: Data, p: Data :: |n| == NONCE_LEN ==>
      && |cipher.seal(n, p)| == |p| + GCM_TAG_LEN
      && cipher.open(n, cipher.seal(n, p)) == Some(p)
      && forall m: Data :: |m| == NONCE_LEN && cipher.open(m, cipher.seal(n, p)).Some? ==> m == n
  }

  /** The assumption can be met: here the tag simply names the nonce. */
  lemma IdealCiphersExist() returns (cipher: Cipher)
    ensures Ideal(cipher)
  {
    var pad: Data := [0, 0, 0, 0];
    cipher := Cipher(
      (n: Data, p: Data) => n + pad + p,
      (n: Data, c: Data) => if 16 <= |c| && c[..16] == n + pad then Some(c[16..]) else None);
    forall n: Data, p: Data, m: Data | |n| == NONCE_LEN && |m| == NONCE_LEN
      ensures |cipher.seal(n, p)| == |p| + GCM_TAG_LEN && cipher.open(n, cipher.seal(n, p)) == Some(p)
      ensures cipher.open(m, cipher.seal(n, p)).Some? ==> m == n
    {
      var c := cipher.seal(n, p);
      assert c[..16] == n + pad && c[16..] == p;
      assert (n + pad)[..NONCE_LEN] == n && (m + pad)[..NONCE_LEN] == m;
    }
  }

  // ---------------------------------------------------------------- numbers on the wire

  /** Big-endian, four bytes. */
  function U32(n: nat): (r: Data)
    requires n < FRAME_LIMIT
    ensures |r| == 4
  {
    [(n / 256 / 256 / 256) as byte, (n / 256 / 256 % 256) as byte, (n / 256 % 256) as byte, (n % 256) as byte]
  }

  function FromU32(b: Data): nat
    requires |b| == 4
  {
    ((b[0] as nat * 256 + b[1] as nat) * 256 + b[2] as nat) * 256 + b[3] as nat
  }

  lemma U32RoundTrip(n: nat)
    requires n < FRAME_LIMIT
    ensures FromU32(U32(n)) == n
  {
  }

  /** Big-endian numbers are ordered like the bytes that spell them. */
  lemma {:induction false} BytesOrderNumbers(m: nat, n: nat)
    requires m < FRAME_LIMIT && n < FRAME_LIMIT
    ensures Less(U32(m), U32(n)) <==> m < n
  {
    var a, b := U32(m), U32(n);
    LastByteDecides(a[3..], b[3..]);
    assert Less(a[2..], b[2..]) <==> a[2] < b[2] || (a[2] == b[2] && a[3] < b[3]) by {
      assert a[2..][1..] == a[3..] && b[2..][1..] == b[3..];
    }
    assert Less(a[1..], b[1..]) <==> a[1] < b[1] || (a[1] == b[1] && Less(a[2..], b[2..])) by {
      assert a[1..][1..] == a[2..] && b[1..][1..] == b[2..];
    }
    U32RoundTrip(m);
    U32RoundTrip(n);
  }

  lemma LastByteDecides(a: Data, b: Data)
    requires |a| == |b| == 1
    ensures Less(a, b) <==> a[0] < b[0]
  {
  }

  function FrameNonce(base: Data, counter: nat): (r: Data)
    requires |base| == NONCE_LEN && counter < FRAME_LIMIT
    ensures |r| == NONCE_LEN
  {
    base[..NONCE_LEN - 4] + U32(counter)
  }

  /** The first eight bytes of the file's base nonce stay, the other four carry the number of the frame. */
  lemma NonceKeepsBase(base: Data, counter: nat)
    requires |base| == NONCE_LEN && counter < FRAME_LIMIT
    ensures
      var r := FrameNonce(base, counter);
      r[..NONCE_LEN - 4] == base[..NONCE_LEN - 4] && FromU32(r[NONCE_LEN - 4..]) == counter
  {
    U32RoundTrip(counter);
    assert FrameNonce(base, counter)[NONCE_LEN - 4..] == U32(counter);
  }

  /** Two frames have the same nonce exactly when they have the same number and their files' bases agree on
      the first eight bytes. */
  lemma NoncesDiffer(base: Data, base': Data, m: nat, n: nat)
    requires |base| == |base'| == NONCE_LEN && m < FRAME_LIMIT && n < FRAME_LIMIT
    ensures FrameNonce(base, m) == FrameNonce(base', n) <==> m == n && base[..NONCE_LEN - 4] == base'[..NONCE_LEN - 4]
  {
    NonceKeepsBase(base, m);
    NonceKeepsBase(base', n);
    if m == n && base[..NONCE_LEN - 4] == base'[..NONCE_LEN - 4] {
      assert FrameNonce(base, m) == base'[..NONCE_LEN - 4] + U32(n);
    }
  }

  // ---------------------------------------------------------------- encryption

  /** What `read` may return before the end of the file. */
  predicate Blocks(blocks: seq<Data>) {
    forall i :: 0 <= i < |blocks| ==> 0 < |blocks[i]| <= STREAM_CHUNK_BYTES
  }

  function FrameBytes(ciphertext: Data): Data
    requires |ciphertext| < FRAME_LIMIT
  {
    U32(|ciphertext|) + ciphertext
  }

  /** Frame number `i` of an encryption. */
  function Frame(cipher: Cipher, base: Data, i: nat, plain: Data): Data
    requires |base| == NONCE_LEN && i < FRAME_LIMIT && |cipher.seal(FrameNonce(base, i), plain)| < FRAME_LIMIT
  {
    FrameBytes(cipher.seal(FrameNonce(base, i), plain))
  }

  lemma FrameLength(cipher: Cipher, base: Data, i: nat, plain: Data)
    requires Ideal(cipher) && |base| == NONCE_LEN && i < FRAME_LIMIT && 0 < |plain| <= STREAM_CHUNK_BYTES
    ensures 0 < |cipher.seal(FrameNonce(base, i), plain)| <= MAX_FRAME_CIPHERTEXT
  {
  }

  /** The frames of one encryption with the given numbers, in that order. */
  ghost function Picked(cipher: Cipher, base: Data, blocks: seq<Data>, numbers: seq<nat>): Data
    requires Ideal(cipher) && |base| == NONCE_LEN && Blocks(blocks)
    requires forall j :: 0 <= j < |numbers| ==> numbers[j] < |blocks| && numbers[j] < FRAME_LIMIT
  {
    if numbers == [] then []
    else
      var i := numbers[0];
      FrameLength(cipher, base, i, blocks[i]);
      Frame(cipher, base, i, blocks[i]) + Picked(cipher, base, blocks, numbers[1..])
  }

  function From(first: nat, count: nat): (r: seq<nat>)
    ensures |r| == count && forall i :: 0 <= i < count ==> r[i] == first + i
  {
    seq(count, i requires 0 <= i < count => first + i)
  }

  lemma {:induction false} PickedSnoc(cipher: Cipher, base: Data, blocks: seq<Data>, numbers: seq<nat>, i: nat)
    requires Ideal(cipher) && |base| == NONCE_LEN && Blocks(blocks)
    requires forall j :: 0 <= j < |numbers| ==> numbers[j] < |blocks| && numbers[j] < FRAME_LIMIT
    requires i < |blocks| && i < FRAME_LIMIT
    ensures |cipher.seal(FrameNonce(base, i), blocks[i])| < FRAME_LIMIT
    ensures Picked(cipher, base, blocks, numbers + [i]) ==
              Picked(cipher, base, blocks, numbers) + Frame(cipher, base, i, blocks[i])
  {
    FrameLength(cipher, base, i, blocks[i]);
    if numbers == [] {
      assert numbers + [i] == [i];
    } else {
      PickedSnoc(cipher, base, blocks, numbers[1..], i);
      assert (numbers + [i])[1..] == numbers[1..] + [i];
    }
  }

  /** The first `n` frames in order, behind the header. */
  ghost function Written(cipher: Cipher, base: Data, blocks: seq<Data>, n: nat): Data
    requires Ideal(cipher) && |base| == NONCE_LEN && Blocks(blocks) && n <= |blocks| && n <= FRAME_LIMIT
  {
    MAGIC + [VERSION] + base + Picked(cipher, base, blocks, From(0, n))
  }

  lemma WrittenNext(cipher: Cipher, base: Data, blocks: seq<Data>, i: nat)
    requires Ideal(cipher) && |base| == NONCE_LEN && Blocks(blocks) && i < |blocks| && i < FRAME_LIMIT
    ensures |cipher.seal(FrameNonce(base, i), blocks[i])| < FRAME_LIMIT
    ensures Written(cipher, base, blocks, i + 1) == Written(cipher, base, blocks, i) + Frame(cipher, base, i, blocks[i])
  {
    PickedSnoc(cipher, base, blocks, From(0, i), i);
    assert From(0, i + 1) == From(0, i) + [i];
    Associative(MAGIC + [VERSION] + base, Picked(cipher, base, blocks, From(0, i)), Frame(cipher, base, i, blocks[i]));
  }

  /** `encrypt_file`: fails exactly when the last frame would use up the frame counter. */
  method EncryptFile(cipher: Cipher, base: Data, blocks: seq<Data>) returns (file: Option<Data>)
    requires Ideal(cipher) && |base| == NONCE_LEN && Blocks(blocks)
    ensures file.Some? <==> |blocks| < FRAME_LIMIT
    ensures file.Some? ==> file.value == Written(cipher, base, blocks, |blocks|)
  {
    var out := MAGIC + [VERSION] + base;
    assert From(0, 0) == [] && out + [] == out;
    var counter := 0;
    while counter < |blocks|
      invariant counter <= |blocks| && counter < FRAME_LIMIT
      invariant out == Written(cipher, base, blocks, counter)
    {
      WrittenNext(cipher, base, blocks, counter);
      var ciphertext := cipher.seal(FrameNonce(base, counter), blocks[counter]);
      out := out + FrameBytes(ciphertext);
      if counter + 1 == FRAME_LIMIT {
        return None;
      }
      counter := counter + 1;
    }
    file := Some(out);
  }

  // ---------------------------------------------------------------- decryption

  /** The v2 body from a frame boundary on: `out` has been written, `counter` frames were read. */
  function Decode(cipher: Cipher, base: Data, rest: Data, counter: nat, out: Data): Option<Data>
    requires |base| == NONCE_LEN && counter < FRAME_LIMIT
    decreases |rest|
  {
    if rest == [] then Some(out)
    else if |rest| < 4 then None
    else
      var n := FromU32(rest[..4]);
      if n == 0 || MAX_FRAME_CIPHERTEXT < n || |rest| - 4 < n then None
      else
        var plain := cipher.open(FrameNonce(base, counter), rest[4..4 + n]);
        if plain.None? || counter + 1 == FRAME_LIMIT then None
        else Decode(cipher, base, rest[4 + n..], counter + 1, out + plain.value)
  }

  /** `decrypt_v2_body`. */
  method DecryptBody(cipher: Cipher, body: Data) returns (r: Option<Data>)
    ensures |body| < NONCE_LEN ==> r.None?
    ensures NONCE_LEN <= |body| ==> r == Decode(cipher, body[..NONCE_LEN], body[NONCE_LEN..], 0, [])
  {
    if |body| < NONCE_LEN {
      return None;
    }
    var base, rest := body[..NONCE_LEN], body[NONCE_LEN..];
    var counter, out := 0, [];
    while rest != []
      invariant counter < FRAME_LIMIT
      invariant Decode(cipher, base, rest, counter, out) == Decode(cipher, base, body[NONCE_LEN..], 0, [])
      decreases |rest|
    {
      if |rest| < 4 {
        return None;
      }
      var n := FromU32(rest[..4]);
      if n == 0 || MAX_FRAME_CIPHERTEXT < n || |rest| - 4 < n {
        return None;
      }
      var plain := cipher.open(FrameNonce(base, counter), rest[4..4 + n]);
      if plain.None? || counter + 1 == FRAME_LIMIT {
        return None;
      }
      out, rest, counter := out + plain.value, rest[4 + n..], counter + 1;
    }
    r := Some(out);
  }

  /** `decrypt_to`: the header decides between the streamed and the legacy whole-file body. */
  method DecryptTo(cipher: Cipher, file: Data) returns (r: Option<Data>)
    ensures |file| < 9 || file[..8] != MAGIC || file[8] !in {VERSION_1, VERSION} ==> r.None?
    ensures 21 <= |file| && file[..8] == MAGIC && file[8] == VERSION ==>
              r == Decode(cipher, file[9..21], file[21..], 0, [])
    ensures 21 <= |file| && file[..8] == MAGIC && file[8] == VERSION_1 ==>
              r == cipher.open(file[9..21], file[21..])
    ensures |file| < 21 ==> r.None?
  {
    if |file| < 9 || file[..8] != MAGIC {
      return None;
    }
    if file[8] == VERSION_1 {
      if |file| < 21 {
        return None;
      }
      r := cipher.open(file[9..21], file[21..]);
    } else if file[8] == VERSION {
      r := DecryptBody(cipher, file[9..]);
      assert |file| >= 21 ==> file[9..][..12] == file[9..21] && file[9..][12..] == file[21..];
    } else {
      r := None;
    }
  }

  // ---------------------------------------------------------------- the theorems

  /** A frame is accepted exactly at the position it was written for. */
  lemma {:induction false} DecodeFrame(cipher: Cipher, base: Data, i: nat, plain: Data, tail: Data, counter: nat, out: Data)
    requires Ideal(cipher) && |base| == NONCE_LEN && i < FRAME_LIMIT && counter < FRAME_LIMIT
    requires 0 < |plain| <= STREAM_CHUNK_BYTES && |cipher.seal(FrameNonce(base, i), plain)| <= MAX_FRAME_CIPHERTEXT
    ensures Decode(cipher, base, Frame(cipher, base, i, plain) + tail, counter, out) ==
              if i == counter && counter + 1 < FRAME_LIMIT then Decode(cipher, base, tail, counter + 1, out + plain) else None
  {
    var sealed := cipher.seal(FrameNonce(base, i), plain);
    var rest := Frame(cipher, base, i, plain) + tail;
    U32RoundTrip(|sealed|);
    assert |sealed| == |plain| + GCM_TAG_LEN;
    assert rest[..4] == U32(|sealed|);
    assert rest[4..4 + |sealed|] == sealed;
    assert rest[4 + |sealed|..] == tail;
    if i != counter && cipher.open(FrameNonce(base, counter), sealed).Some? {
      NoncesDiffer(base, base, i, counter);
    }
  }

  /** Frames behind one another, each with its length in front. */
  function Joined(frames: seq<Data>): Data
    requires forall i :: 0 <= i < |frames| ==> |frames[i]| < FRAME_LIMIT
  {
    if frames == [] then [] else FrameBytes(frames[0]) + Joined(frames[1..])
  }

  /** A ciphertext of an acceptable size that opens at position `at`. */
  predicate Opens(cipher: Cipher, base: Data, frame: Data, at: nat)
    requires |base| == NONCE_LEN
  {
    0 < |frame| <= MAX_FRAME_CIPHERTEXT && at + 1 < FRAME_LIMIT && cipher.open(FrameNonce(base, at), frame).Some?
  }

  /** `body` is a sequence of acceptable frames that open to `parts`, numbered from `counter` on. */
  predicate Framed(cipher: Cipher, base: Data, body: Data, counter: nat, frames: seq<Data>, parts: seq<Data>)
    requires |base| == NONCE_LEN
  {
    && |frames| == |parts|
    && (forall i :: 0 <= i < |frames| ==>
          Opens(cipher, base, frames[i], counter + i) && cipher.open(FrameNonce(base, counter + i), frames[i]) == Some(parts[i]))
    && body == Joined(frames)
  }

  lemma FrameAtHead(frame: Data, tail: Data)
    requires |frame| < FRAME_LIMIT
    ensures
      var body := FrameBytes(frame) + tail;
      4 + |frame| <= |body| && FromU32(body[..4]) == |frame| && body[4..4 + |frame|] == frame && body[4 + |frame|..] == tail
  {
    U32RoundTrip(|frame|);
    var body := FrameBytes(frame) + tail;
    assert body[..4] == U32(|frame|);
  }

  /** What the decoder accepts: whatever is a sequence of acceptable frames is decoded to what they open to. */
  lemma {:induction false} FramedDecodes(
    cipher: Cipher, base: Data, body: Data, counter: nat, out: Data, frames: seq<Data>, parts: seq<Data>)
    requires |base| == NONCE_LEN && counter < FRAME_LIMIT && Framed(cipher, base, body, counter, frames, parts)
    ensures Decode(cipher, base, body, counter, out) == Some(out + Flatten(parts))
    decreases |frames|
  {
    if frames == [] {
      assert out + [] == out;
    } else {
      FrameAtHead(frames[0], Joined(frames[1..]));
      assert Opens(cipher, base, frames[0], counter + 0);
      forall i | 0 <= i < |frames| - 1
        ensures Opens(cipher, base, frames[1..][i], counter + 1 + i)
                && cipher.open(FrameNonce(base, counter + 1 + i), frames[1..][i]) == Some(parts[1..][i])
      {
        assert Opens(cipher, base, frames[i + 1], counter + (i + 1));
      }
      FramedDecodes(cipher, base, Joined(frames[1..]), counter + 1, out + parts[0], frames[1..], parts[1..]);
      Associative(out, parts[0], Flatten(parts[1..]));
    }
  }

  lemma U32Only(b: Data)
    requires |b| == 4
    ensures FromU32(b) < FRAME_LIMIT && U32(FromU32(b)) == b
  {
    var x := b[0] as nat * 256 + b[1] as nat;
    var y := x * 256 + b[2] as nat;
    assert FromU32(b) / 256 == y && FromU32(b) % 256 == b[3] as nat;
    assert y / 256 == x && y % 256 == b[2] as nat;
    assert x / 256 == b[0] as nat && x % 256 == b[1] as nat;
    assert U32(FromU32(b))[0] == b[0] && U32(FromU32(b))[1] == b[1] && U32(FromU32(b))[2] == b[2] && U32(FromU32(b))[3] == b[3];
  }

  /** And nothing else is accepted: an empty or oversized frame, one cut short, one that does not open at its position, or
      one too many. */
  lemma {:induction false} OnlyFramedDecodes(cipher: Cipher, base: Data, body: Data, counter: nat, out: Data)
    returns (frames: seq<Data>, parts: seq<Data>)
    requires |base| == NONCE_LEN && counter < FRAME_LIMIT && Decode(cipher, base, body, counter, out).Some?
    ensures Framed(cipher, base, body, counter, frames, parts)
    decreases |body|
  {
    if body == [] {
      frames, parts := [], [];
    } else {
      var frame, tail, plain := AcceptedHead(cipher, base, body, counter, out);
      var fs, ps := OnlyFramedDecodes(cipher, base, tail, counter + 1, out + plain);
      frames, parts := [frame] + fs, [plain] + ps;
      FramedCons(cipher, base, tail, counter, frame, plain, fs, ps);
    }
  }

  /** A body that is accepted starts with a frame that is. */
  lemma AcceptedHead(cipher: Cipher, base: Data, body: Data, counter: nat, out: Data)
    returns (frame: Data, tail: Data, plain: Data)
    requires |base| == NONCE_LEN && counter < FRAME_LIMIT && Decode(cipher, base, body, counter, out).Some? && body != []
    ensures Opens(cipher, base, frame, counter) && cipher.open(FrameNonce(base, counter), frame) == Some(plain)
    ensures body == FrameBytes(frame) + tail && Decode(cipher, base, tail, counter + 1, out + plain).Some?
  {
    var n := FromU32(body[..4]);
    frame, tail := body[4..4 + n], body[4 + n..];
    plain := cipher.open(FrameNonce(base, counter), frame).value;
    U32Only(body[..4]);
    assert body == body[..4] + frame + tail;
  }

  lemma FramedCons(
    cipher: Cipher, base: Data, tail: Data, counter: nat, frame: Data, plain: Data, frames: seq<Data>, parts: seq<Data>)
    requires |base| == NONCE_LEN && Framed(cipher, base, tail, counter + 1, frames, parts)
    requires Opens(cipher, base, frame, counter) && cipher.open(FrameNonce(base, counter), frame) == Some(plain)
    ensures Framed(cipher, base, FrameBytes(frame) + tail, counter, [frame] + frames, [plain] + parts)
  {
    var fs, ps := [frame] + frames, [plain] + parts;
    assert fs[1..] == frames;
    forall i | 0 <= i < |fs|
      ensures Opens(cipher, base, fs[i], counter + i) && cipher.open(FrameNonce(base, counter + i), fs[i]) == Some(ps[i])
    {
      if 0 < i {
        assert Opens(cipher, base, frames[i - 1], counter + 1 + (i - 1));
      }
    }
  }

  /** Decoding from frame position `at` on, with `out` written so far. */
  ghost function DecodeAt(cipher: Cipher, base: Data, blocks: seq<Data>, numbers: seq<nat>, at: nat, out: Data): Option<Data>
    requires Ideal(cipher) && |base| == NONCE_LEN && Blocks(blocks) && |blocks| < FRAME_LIMIT
    requires forall j :: 0 <= j < |numbers| ==> numbers[j] < |blocks|
  {
    if at <= |numbers| && at < FRAME_LIMIT then Decode(cipher, base, Picked(cipher, base, blocks, numbers[at..]), at, out)
    else None
  }

  lemma DecodeNext(cipher: Cipher, base: Data, blocks: seq<Data>, numbers: seq<nat>, at: nat, out: Data)
    requires Ideal(cipher) && |base| == NONCE_LEN && Blocks(blocks) && |blocks| < FRAME_LIMIT
    requires at < |numbers| && forall j :: 0 <= j < |numbers| ==> numbers[j] < |blocks|
    ensures DecodeAt(cipher, base, blocks, numbers, at, out) ==
              if numbers[at] == at then DecodeAt(cipher, base, blocks, numbers, at + 1, out + blocks[at]) else None
  {
    if at < FRAME_LIMIT {
      var i := numbers[at];
      FrameLength(cipher, base, i, blocks[i]);
      assert numbers[at..][1..] == numbers[at + 1..];
      DecodeFrame(cipher, base, i, blocks[i], Picked(cipher, base, blocks, numbers[at + 1..]), at, out);
    }
  }

  predicate GoesOn(f: (nat, Data) -> Option<Data>, numbers: seq<nat>, blocks: seq<Data>, at: nat, out: Data)
    requires at < |numbers|
  {
    f(at, out) == if numbers[at] == at < |blocks| then f(at + 1, out + blocks[at]) else None
  }

  /** A walk that goes on at the expected numbers only, and collects the blocks on its way. */
  ghost predicate Walks(f: (nat, Data) -> Option<Data>, numbers: seq<nat>, blocks: seq<Data>) {
    && (forall at: nat, out: Data :: at < |numbers| ==> GoesOn(f, numbers, blocks, at, out))
    && (forall out: Data :: |numbers| <= |blocks| ==> f(|numbers|, out) == Some(out))
  }

  lemma {:induction false} WalkCollects(f: (nat, Data) -> Option<Data>, numbers: seq<nat>, blocks: seq<Data>, at: nat, out: Data)
    requires Walks(f, numbers, blocks) && at <= |numbers| <= |blocks| && forall j :: at <= j < |numbers| ==> numbers[j] == j
    ensures f(at, out) == Some(out + Flatten(blocks[at..|numbers|]))
    decreases |numbers| - at
  {
    var n := |numbers|;
    if at == n {
      assert blocks[n..n] == [] && out + [] == out;
    } else {
      assert GoesOn(f, numbers, blocks, at, out);
      WalkCollects(f, numbers, blocks, at + 1, out + blocks[at]);
      assert blocks[at..n][1..] == blocks[at + 1..n];
      Associative(out, blocks[at], Flatten(blocks[at + 1..n]));
    }
  }

  lemma {:induction false} WalkStops(f: (nat, Data) -> Option<Data>, numbers: seq<nat>, blocks: seq<Data>, at: nat, out: Data, bad: nat)
    requires Walks(f, numbers, blocks) && at <= bad < |numbers| && numbers[bad] != bad
    ensures f(at, out).None?
    decreases bad - at
  {
    assert GoesOn(f, numbers, blocks, at, out);
    if at < bad && numbers[at] == at < |blocks| {
      WalkStops(f, numbers, blocks, at + 1, out + blocks[at], bad);
    }
  }

  ghost function Decoder(cipher: Cipher, base: Data, blocks: seq<Data>, numbers: seq<nat>): (nat, Data) -> Option<Data>
    requires Ideal(cipher) && |base| == NONCE_LEN && Blocks(blocks) && |blocks| < FRAME_LIMIT
    requires forall j :: 0 <= j < |numbers| ==> numbers[j] < |blocks|
  {
    (at: nat, out: Data) => DecodeAt(cipher, base, blocks, numbers, at, out)
  }

  lemma DecodingWalks(cipher: Cipher, base: Data, blocks: seq<Data>, numbers: seq<nat>)
    requires Ideal(cipher) && |base| == NONCE_LEN && Blocks(blocks) && |blocks| < FRAME_LIMIT
    requires forall j :: 0 <= j < |numbers| ==> numbers[j] < |blocks|
    ensures Walks(Decoder(cipher, base, blocks, numbers), numbers, blocks)
  {
    var f := Decoder(cipher, base, blocks, numbers);
    forall at: nat, out: Data | at < |numbers|
      ensures GoesOn(f, numbers, blocks, at, out)
    {
      DecodeNext(cipher, base, blocks, numbers, at, out);
    }
    forall out: Data | |numbers| <= |blocks| ensures f(|numbers|, out) == Some(out) {
      assert numbers[|numbers|..] == [];
    }
  }

  /** Dropped, repeated or reordered frames of an encryption are refused; only a prefix in order decodes. */
  lemma OnlyPrefixesDecode(cipher: Cipher, base: Data, blocks: seq<Data>, numbers: seq<nat>)
    requires Ideal(cipher) && |base| == NONCE_LEN && Blocks(blocks) && |blocks| < FRAME_LIMIT
    requires forall j :: 0 <= j < |numbers| ==> numbers[j] < |blocks|
    ensures
      var r := DecodeAt(cipher, base, blocks, numbers, 0, []);
      && (r.Some? <==> forall j :: 0 <= j < |numbers| ==> numbers[j] == j)
      && (r.Some? ==> |numbers| <= |blocks| && r.value == Flatten(blocks[..|numbers|]))
  {
    var f := Decoder(cipher, base, blocks, numbers);
    DecodingWalks(cipher, base, blocks, numbers);
    if bad: nat :| bad < |numbers| && numbers[bad] != bad {
      WalkStops(f, numbers, blocks, 0, [], bad);
    } else {
      assert numbers != [] ==> numbers[|numbers| - 1] == |numbers| - 1;
      WalkCollects(f, numbers, blocks, 0, []);
      assert [] + Flatten(blocks[..|numbers|]) == Flatten(blocks[..|numbers|]);
    }
  }

  lemma HeaderIs(base: Data, frames: Data)
    requires |base| == NONCE_LEN
    ensures
      var file := MAGIC + [VERSION] + base + frames;
      21 <= |file| && file[..8] == MAGIC && file[8] == VERSION && file[9..21] == base && file[21..] == frames
  {
  }

  /** Whatever the sizes of the blocks read, decrypting the container gives back their contents. */
  lemma {:induction false} ContainerRoundTrips(cipher: Cipher, base: Data, blocks: seq<Data>)
    requires Ideal(cipher) && |base| == NONCE_LEN && Blocks(blocks) && |blocks| < FRAME_LIMIT
    ensures
      var file := Written(cipher, base, blocks, |blocks|);
      && 21 <= |file| && file[..8] == MAGIC && file[8] == VERSION
      && Decode(cipher, file[9..21], file[21..], 0, []) == Some(Flatten(blocks))
  {
    var numbers := From(0, |blocks|);
    HeaderIs(base, Picked(cipher, base, blocks, numbers));
    OnlyPrefixesDecode(cipher, base, blocks, numbers);
    assert numbers[0..] == numbers && blocks[..|blocks|] == blocks;
  }
}
