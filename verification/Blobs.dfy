/**
  Sealed blobs and the keys they are stored under (internal/domain/files/crypto.go
  and memory.go). AES-GCM is a parameter: any cipher whose open undoes its seal and
  whose tag adds sixteen bytes.
 */
module Blobs {
  newtype byte = x: int | 0 <= x < 256

  type Bytes = seq<byte>

  datatype Result<T> = Ok(value: T) | Error(error: FileError)

  datatype Option<T> = None | Some(value: T)

  datatype FileError = ErrNotFound | ErrCorrupt | ErrKeySize | ErrRejected | ErrStorage

  const VERSION: byte := 1
  const NONCE_SIZE: nat := 12
  const KEY_SIZE: nat := 32
  const TAG_SIZE: nat := 16

  datatype Aead = Aead(seal: (Bytes, Bytes, Bytes) -> Bytes, open: (Bytes, Bytes, Bytes) -> Option<Bytes>)

  ghost predicate Lawful(a: Aead) {
    forall key, nonce, plain ::
      a.open(key, nonce, a.seal(key, nonce, plain)) == Some(plain) && |a.seal(key, nonce, plain)| == |plain| + TAG_SIZE
  }

  // version, nonce, ciphertext and tag
  function Envelope(a: Aead, key: Bytes, nonce: Bytes, plain: Bytes): Bytes {
    [VERSION] + nonce + a.seal(key, nonce, plain)
  }

  // Seal fills the envelope in place.
  method Seal(a: Aead, key: Bytes, nonce: Bytes, plain: Bytes) returns (r: Result<Bytes>)
    requires |nonce| == NONCE_SIZE
    ensures r == if |key| != KEY_SIZE then Error(ErrKeySize) else Ok(Envelope(a, key, nonce, plain))
  {
    if |key| != KEY_SIZE { return Error(ErrKeySize); }
    var sealed := a.seal(key, nonce, plain);
    var out := new byte[1 + NONCE_SIZE + |sealed|];
    out[0] := VERSION;
    Copy(out, 1, nonce);
    Copy(out, 1 + NONCE_SIZE, sealed);
    assert out[1 + NONCE_SIZE..] == sealed && out[..1 + NONCE_SIZE] == [VERSION] + nonce;
    assert out[..] == out[..1 + NONCE_SIZE] + out[1 + NONCE_SIZE..];
    return Ok(out[..]);
  }

  method Copy(out: array<byte>, at: nat, from: Bytes)
    requires at + |from| <= out.Length
    modifies out
    ensures out[at..at + |from|] == from
    ensures out[..at] == old(out[..at]) && out[at + |from|..] == old(out[at + |from|..])
  {
    for i := 0 to |from|
      invariant out[at..at + i] == from[..i]
      invariant out[..at] == old(out[..at]) && out[at + |from|..] == old(out[at + |from|..])
    {
      out[at + i] := from[i];
    }
  }

  function Open(a: Aead, key: Bytes, envelope: Bytes): Result<Bytes> {
    if |envelope| < 1 + NONCE_SIZE + TAG_SIZE || envelope[0] != VERSION then Error(ErrCorrupt)
    else if |key| != KEY_SIZE then Error(ErrKeySize)
    else match a.open(key, envelope[1..1 + NONCE_SIZE], envelope[1 + NONCE_SIZE..])
      case Some(plain) => Ok(plain)
      case None => Error(ErrCorrupt)
  }

  // Opening undoes sealing, and an envelope is 29 bytes longer than its contents.
  lemma {:induction false} OpenUndoesSeal(a: Aead, key: Bytes, nonce: Bytes, plain: Bytes)
    requires Lawful(a) && |key| == KEY_SIZE && |nonce| == NONCE_SIZE
    ensures Open(a, key, Envelope(a, key, nonce, plain)) == Ok(plain)
    ensures |Envelope(a, key, nonce, plain)| == |plain| + 29
  {
    var e := Envelope(a, key, nonce, plain);
    assert e[1..1 + NONCE_SIZE] == nonce;
    assert e[1 + NONCE_SIZE..] == a.seal(key, nonce, plain);
    assert |a.seal(key, nonce, plain)| == |plain| + TAG_SIZE;
  }

  // -------------------------------------------------------------------- keys

  // The text form of a UUID: thirty-six characters, none of them a slash.
  predicate UuidText(s: string) { |s| == 36 && '/' !in s }

  const ZEROS: string := "00000000-0000-0000-0000-000000000000"

  type Uuid = s: string | UuidText(s) witness ZEROS

  const NIL: Uuid := ZEROS

  function BlobKey(org: Uuid, file: Uuid): string { org + "/" + file }

  function AccountKey(file: Uuid): string { "account/" + file }

  // The two key spaces never meet, and within each a key names one file.
  lemma {:induction false} KeysApart(org: Uuid, file: Uuid, other: Uuid, x: Uuid)
    ensures BlobKey(org, file) != AccountKey(x)
    ensures BlobKey(org, file) == BlobKey(other, x) ==> org == other && file == x
    ensures AccountKey(file) == AccountKey(x) ==> file == x
  {
    var a, b := BlobKey(org, file), BlobKey(other, x);
    var c, d := AccountKey(file), AccountKey(x);
    assert a[..36] == org && a[37..] == file && b[..36] == other && b[37..] == x;
    assert c[8..] == file && d[8..] == x;
    assert a[7] == org[7] && org[7] in org && d[7] == '/';
  }

  // MemoryBlobs: ciphertext under a key, changed in place.
  class MemoryBlobs {
    var data: map<string, Bytes>

    constructor ()
      ensures data == map[]
    {
      data := map[];
    }

    method Put(org: Uuid, file: Uuid, ciphertext: Bytes) returns (key: string)
      modifies this
      ensures key == BlobKey(org, file) && data == old(data)[key := ciphertext]
    {
      key := BlobKey(org, file);
      data := data[key := ciphertext];
    }

    method Fetch(org: Uuid, file: Uuid) returns (r: Result<Bytes>)
      ensures r == if BlobKey(org, file) in data then Ok(data[BlobKey(org, file)]) else Error(ErrNotFound)
    {
      var key := BlobKey(org, file);
      if key !in data { return Error(ErrNotFound); }
      return Ok(data[key]);
    }

    method Remove(org: Uuid, file: Uuid)
      modifies this
      ensures data == old(data) - {BlobKey(org, file)}
    {
      data := data - {BlobKey(org, file)};
    }

    method PutAccount(file: Uuid, ciphertext: Bytes) returns (key: string)
      modifies this
      ensures key == AccountKey(file) && data == old(data)[key := ciphertext]
    {
      key := AccountKey(file);
      data := data[key := ciphertext];
    }

    method RemoveAccount(file: Uuid)
      modifies this
      ensures data == old(data) - {AccountKey(file)}
    {
      data := data - {AccountKey(file)};
    }
  }
}
