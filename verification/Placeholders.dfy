/** The stand-in digest of a message not yet downloaded, byte by byte: no two (mailbox, UID)
    pairs share one, which is why `Tables.Digest` may keep the pair itself. */
module Placeholders {
  import opened Powers

  type Byte = b: int | 0 <= b < 256

  /** x >> 8*i, with the sign. */
  function Shifted(x: int, i: nat): int
    decreases i
  {
    if i == 0 then x else Shifted(x / 256, i - 1)
  }

  function ByteAt(x: int, i: nat): Byte {
    Shifted(x, i) % 256
  }

  /** "pending:", then both numbers from their lowest byte on, then zeros. */
  predicate IsPlaceholder(digest: seq<Byte>, mailbox: int, uid: int) {
    && |digest| == 32
    && digest[..8] == ['p' as int, 'e' as int, 'n' as int, 'd' as int, 'i' as int, 'n' as int, 'g' as int, ':' as int]
    && (forall i | 0 <= i < 8 :: digest[8 + i] == ByteAt(mailbox, i))
    && (forall i | 0 <= i < 8 :: digest[16 + i] == ByteAt(uid, i))
    && (forall i | 24 <= i < 32 :: digest[i] == 0)
  }

  method PlaceholderDigest(mailbox: int, uid: int) returns (digest: array<Byte>)
    requires Int64(mailbox) && Int64(uid)
    ensures fresh(digest) && IsPlaceholder(digest[..], mailbox, uid)
  {
    digest := new Byte[32](_ => 0);
    var name := "pending:";
    for i := 0 to 8
      invariant forall k | 0 <= k < i :: digest[k] == name[k] as int
      invariant forall k | i <= k < 32 :: digest[k] == 0
    {
      digest[i] := name[i] as int;
    }
    for i := 0 to 8
      invariant forall k | 0 <= k < 8 :: digest[k] == name[k] as int
      invariant forall k | 0 <= k < i :: digest[8 + k] == ByteAt(mailbox, k)
      invariant forall k | 0 <= k < i :: digest[16 + k] == ByteAt(uid, k)
      invariant forall k | 24 <= k < 32 :: digest[k] == 0
    {
      digest[8 + i] := ByteAt(mailbox, i);
      digest[16 + i] := ByteAt(uid, i);
    }
  }

  function Pow256(n: nat): nat {
    if n == 0 then 1 else 256 * Pow256(n - 1)
  }

  /** Numbers whose n lowest bytes agree differ by a multiple of 256^n. */
  lemma {:induction false} SameLowBytes(x: int, y: int, n: nat) returns (k: int)
    requires forall i | 0 <= i < n :: ByteAt(x, i) == ByteAt(y, i)
    ensures x - y == k * Pow256(n)
    decreases n
  {
    if n == 0 {
      k := x - y;
    } else {
      assert ByteAt(x, 0) == ByteAt(y, 0);
      forall i | 0 <= i < n - 1
        ensures ByteAt(x / 256, i) == ByteAt(y / 256, i)
      {
        assert ByteAt(x, i + 1) == ByteAt(y, i + 1);
      }
      k := SameLowBytes(x / 256, y / 256, n - 1);
      Times256(x / 256 - y / 256, k, Pow256(n - 1));
    }
  }

  lemma Times256(d: int, k: int, p: nat)
    requires d == k * p
    ensures 256 * d == k * (256 * p)
  {
  }

  lemma BytesDetermine(x: int, y: int)
    requires Int64(x) && Int64(y) && forall i | 0 <= i < 8 :: ByteAt(x, i) == ByteAt(y, i)
    ensures x == y
  {
    var k := SameLowBytes(x, y, 8);
    assert Pow256(4) == 0x1_0000_0000;
    assert Pow256(8) == 0x1_0000_0000_0000_0000;
    SmallMultiple(k, Pow256(8));
  }

  /** One digest stands for one mailbox and one UID. */
  lemma PlaceholdersAreUnique(digest: seq<Byte>, mailbox: int, uid: int, mailbox': int, uid': int)
    requires Int64(mailbox) && Int64(uid) && Int64(mailbox') && Int64(uid')
    requires IsPlaceholder(digest, mailbox, uid) && IsPlaceholder(digest, mailbox', uid')
    ensures mailbox == mailbox' && uid == uid'
  {
    forall i | 0 <= i < 8
      ensures ByteAt(mailbox, i) == ByteAt(mailbox', i) && ByteAt(uid, i) == ByteAt(uid', i)
    {
      assert digest[8 + i] == ByteAt(mailbox, i) && digest[16 + i] == ByteAt(uid, i);
    }
    BytesDetermine(mailbox, mailbox');
    BytesDetermine(uid, uid');
  }
}
