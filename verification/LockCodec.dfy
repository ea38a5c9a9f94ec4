/**
 The byte form of a hash time lock (`raiden_common/messages/transfers.py`).

 A lock is stored in the pending lock list as 96 bytes: the expiration and the
 amount as 32-byte big-endian numbers, then the 32-byte secrethash.  The
 locksroot is the hash of the concatenation of these entries, in order.
 */
module LockCodec {
  import opened Options

  type Byte = b: nat | b < 256

  const UINT256_MAX: nat := 0xFFFF_FFFF_FFFF_FFFF_FFFF_FFFF_FFFF_FFFF_FFFF_FFFF_FFFF_FFFF_FFFF_FFFF_FFFF_FFFF

  datatype HashTimeLock = HashTimeLock(amount: int, expiration: int, secrethash: seq<Byte>)

  /** The checks of `Lock.__post_init__`; any other value raises `ValueError`. */
  predicate IsValidLock(l: HashTimeLock) {
    && 0 <= l.amount <= UINT256_MAX
    && 0 <= l.expiration <= UINT256_MAX
    && |l.secrethash| == 32
  }

  type Lock = l: HashTimeLock | IsValidLock(l)
    witness HashTimeLock(0, 0, seq(32, _ => 0))

  type EncodedLock = seq<Byte>

  function Pow256(n: nat): (p: nat)
    ensures p > 0
  {
    if n == 0 then 1 else 256 * Pow256(n - 1)
  }

  /** `int.to_bytes(width, byteorder="big")` for a number that fits. */
  function ToBytes(n: nat, width: nat): (s: seq<Byte>)
    requires n < Pow256(width)
    ensures |s| == width
  {
    if width == 0 then [] else ToBytes(n / 256, width - 1) + [n % 256]
  }

  /** `int.from_bytes(s, byteorder="big")`. */
  function FromBytes(s: seq<Byte>): (n: nat)
    ensures n < Pow256(|s|)
  {
    if s == [] then 0 else 256 * FromBytes(s[..|s| - 1]) + s[|s| - 1]
  }

  lemma {:induction false} FromToBytes(n: nat, width: nat)
    requires n < Pow256(width)
    ensures FromBytes(ToBytes(n, width)) == n
  {
    if width > 0 {
      var front := ToBytes(n / 256, width - 1);
      assert (front + [n % 256])[..width - 1] == front;
      FromToBytes(n / 256, width - 1);
    }
  }

  lemma {:induction false} ToFromBytes(s: seq<Byte>)
    ensures ToBytes(FromBytes(s), |s|) == s
  {
    if s != [] {
      ToFromBytes(s[..|s| - 1]);
      assert s == s[..|s| - 1] + [s[|s| - 1]];
    }
  }

  lemma Pow256Of32()
    ensures Pow256(32) == UINT256_MAX + 1
  {
    assert Pow256(4) == 0x1_0000_0000;
    assert Pow256(8) == 0x1_0000_0000_0000_0000 by { assert Pow256(6) == 0x1_0000_0000_0000; }
    assert Pow256(16) == 0x1_0000_0000_0000_0000_0000_0000_0000_0000 by {
      assert Pow256(12) == 0x1_0000_0000_0000_0000_0000_0000 by { assert Pow256(10) == 0x1_0000_0000_0000_0000_0000; }
    }
    assert Pow256(24) == 0x1_0000_0000_0000_0000_0000_0000_0000_0000_0000_0000_0000_0000 by {
      assert Pow256(20) == 0x1_0000_0000_0000_0000_0000_0000_0000_0000_0000_0000;
    }
    assert Pow256(28) == 0x1_0000_0000_0000_0000_0000_0000_0000_0000_0000_0000_0000_0000_0000_0000;
  }

  /** `Lock.as_bytes`. */
  function Encode(l: Lock): (s: EncodedLock)
    ensures |s| == 96
  {
    Pow256Of32();
    ToBytes(l.expiration, 32) + ToBytes(l.amount, 32) + l.secrethash
  }

  /** `Lock.from_bytes`; `None` where the constructor raises. */
  function Decode(s: seq<Byte>): (r: Option<Lock>)
    ensures r.Some? <==> |s| == 96
  {
    if |s| != 96 then None else
    Pow256Of32();
    Some(HashTimeLock(FromBytes(s[32..64]), FromBytes(s[..32]), s[64..]))
  }

  lemma DecodeEncode(l: Lock)
    ensures Decode(Encode(l)) == Some(l)
  {
    Pow256Of32();
    var s := Encode(l);
    assert s[..32] == ToBytes(l.expiration, 32);
    assert s[32..64] == ToBytes(l.amount, 32);
    assert s[64..] == l.secrethash;
    FromToBytes(l.expiration, 32);
    FromToBytes(l.amount, 32);
  }

  lemma EncodeDecode(s: seq<Byte>)
    requires |s| == 96
    ensures Encode(Decode(s).value) == s
  {
    ToFromBytes(s[..32]);
    ToFromBytes(s[32..64]);
    assert s == s[..32] + s[32..64] + s[64..];
  }

  lemma EncodeInjective(a: Lock, b: Lock)
    requires Encode(a) == Encode(b)
    ensures a == b
  {
    DecodeEncode(a);
    DecodeEncode(b);
  }

  /** `b"".join(locks)`: what `compute_locksroot` hashes. */
  function Join(locks: seq<EncodedLock>): seq<Byte> {
    if locks == [] then [] else locks[0] + Join(locks[1..])
  }

  /** Every entry of the list is the encoding of some lock. */
  ghost predicate AllEncoded(locks: seq<EncodedLock>) {
    forall i :: 0 <= i < |locks| ==> |locks[i]| == 96
  }

  /** The hashed bytes determine the ordered pending lock list. */
  lemma {:induction false} JoinInjective(a: seq<EncodedLock>, b: seq<EncodedLock>)
    requires AllEncoded(a) && AllEncoded(b)
    requires Join(a) == Join(b)
    ensures a == b
  {
    if a == [] || b == [] {
    } else {
      assert Join(a)[..96] == a[0] && Join(a)[96..] == Join(a[1..]);
      assert Join(b)[..96] == b[0] && Join(b)[96..] == Join(b[1..]);
      JoinInjective(a[1..], b[1..]);
      assert a == [a[0]] + a[1..] && b == [b[0]] + b[1..];
    }
  }

  lemma MoveFactor(a: nat, b: nat, p: nat, n: nat)
    ensures 256 * (a * p + n) + b == a * (256 * p) + (256 * n + b)
  {
  }

  /** The first byte is the most significant one. */
  lemma {:induction false} MostSignificantFirst(s: seq<Byte>)
    requires s != []
    ensures FromBytes(s) == s[0] * Pow256(|s| - 1) + FromBytes(s[1..])
    decreases |s|
  {
    if |s| > 1 {
      var front, last := s[..|s| - 1], s[|s| - 1];
      MostSignificantFirst(front);
      assert s[1..][..|s| - 2] == front[1..];
      MoveFactor(s[0], last, Pow256(|s| - 2), FromBytes(front[1..]));
    }
  }

  /** The expiration comes first, then the amount, each as a number of 32 bytes, then the secrethash. */
  lemma EncodedFields(l: Lock)
    ensures var s := Encode(l);
      FromBytes(s[..32]) == l.expiration && FromBytes(s[32..64]) == l.amount && s[64..] == l.secrethash
  {
    Pow256Of32();
    var s := Encode(l);
    assert s[..32] == ToBytes(l.expiration, 32) && s[32..64] == ToBytes(l.amount, 32);
    FromToBytes(l.expiration, 32);
    FromToBytes(l.amount, 32);
  }
}
