/**
 * Time-based UUIDs as the outbox uses them for envelope ids: sixteen bytes, printed in
 * gocql's canonical 8-4-4-4-12 lower-case hex form, and ordered the way the storage
 * engine orders a `timeuuid` clustering column (timestamp first).
 */
module TimeUuid {
  import opened Base

  type Uuid = s: Bytes | |s| == 16 witness [0, 0, 0, 0, 0, 0, 0, 0, 0, 0, 0, 0, 0, 0, 0, 0]

  function HexDigit(n: nat): char
    requires n < 16
  {
    "0123456789abcdef"[n]
  }

  function HexValue(c: char): Option<nat> {
    if '0' <= c <= '9' then Some(c as int - '0' as int)
    else if 'a' <= c <= 'f' then Some(c as int - 'a' as int + 10)
    else None
  }

  lemma HexDigitValue(n: nat)
    requires n < 16
    ensures HexValue(HexDigit(n)) == Some(n)
  {
  }

  /** Two lower-case hex digits per byte, high nibble first. */
  function Hex(bs: Bytes): (s: string)
    ensures |s| == 2 * |bs|
  {
    if bs == [] then [] else [HexDigit(bs[0] / 16), HexDigit(bs[0] % 16)] + Hex(bs[1..])
  }

  function Unhex(s: string): Option<Bytes>
    decreases |s|
  {
    if s == [] then Some([])
    else if |s| == 1 then None
    else match (HexValue(s[0]), HexValue(s[1]), Unhex(s[2..]))
      case (Some(hi), Some(lo), Some(rest)) => if hi < 16 && lo < 16 then Some([(16 * hi + lo) as byte] + rest) else None
      case _ => None
  }

  lemma {:induction false} HexRoundTrip(bs: Bytes)
    ensures Unhex(Hex(bs)) == Some(bs)
  {
    if bs != [] {
      HexRoundTrip(bs[1..]);
      HexDigitValue(bs[0] / 16);
      HexDigitValue(bs[0] % 16);
      var s := Hex(bs);
      assert s[2..] == Hex(bs[1..]);
      assert [bs[0]] + bs[1..] == bs;
    }
  }

  /** gocql's `UUID.String()`, which `%v` prints: groups of 4, 2, 2, 2 and 6 bytes joined by dashes. */
  function ToString(u: Uuid): string {
    Hex(u[0..4]) + "-" + Hex(u[4..6]) + "-" + Hex(u[6..8]) + "-" + Hex(u[8..10]) + "-" + Hex(u[10..16])
  }

  function Parse(s: string): Option<Uuid> {
    if |s| == 36 && s[8] == '-' && s[13] == '-' && s[18] == '-' && s[23] == '-' then
      match (Unhex(s[0..8]), Unhex(s[9..13]), Unhex(s[14..18]), Unhex(s[19..23]), Unhex(s[24..36]))
      case (Some(a), Some(b), Some(c), Some(d), Some(e)) =>
        if |a + b + c + d + e| == 16 then Some(a + b + c + d + e) else None
      case _ => None
    else None
  }

  /** Where the five groups of a canonical UUID string sit. */
  lemma StringGroups(u: Uuid)
    ensures var s := ToString(u);
      |s| == 36 && s[8] == '-' && s[13] == '-' && s[18] == '-' && s[23] == '-'
      && s[0..8] == Hex(u[0..4]) && s[9..13] == Hex(u[4..6]) && s[14..18] == Hex(u[6..8])
      && s[19..23] == Hex(u[8..10]) && s[24..36] == Hex(u[10..16])
  {
    var s := ToString(u);
    assert s[0..8] == Hex(u[0..4]);
    assert s[9..13] == Hex(u[4..6]);
    assert s[14..18] == Hex(u[6..8]);
    assert s[19..23] == Hex(u[8..10]);
    assert s[24..36] == Hex(u[10..16]);
  }

  /** The printed form of an id determines the id. */
  lemma StringRoundTrip(u: Uuid)
    ensures |ToString(u)| == 36
    ensures Parse(ToString(u)) == Some(u)
  {
    StringGroups(u);
    HexRoundTrip(u[0..4]);
    HexRoundTrip(u[4..6]);
    HexRoundTrip(u[6..8]);
    HexRoundTrip(u[8..10]);
    HexRoundTrip(u[10..16]);
    assert u[0..4] + u[4..6] + u[6..8] + u[8..10] + u[10..16] == u;
  }

  lemma StringInjective(a: Uuid, b: Uuid)
    ensures ToString(a) == ToString(b) <==> a == b
  {
    StringRoundTrip(a);
    StringRoundTrip(b);
  }

  /** The bytes of a version-1 UUID rearranged so that its 60-bit timestamp comes first, high part first. */
  function TimeFirst(u: Uuid): (t: Bytes)
    ensures |t| == 16
  {
    u[6..8] + u[4..6] + u[0..4] + u[8..16]
  }

  /** A byte string read as an unsigned big-endian number. */
  function BigEndian(s: Bytes): nat {
    if s == [] then 0 else 256 * BigEndian(s[..|s| - 1]) + s[|s| - 1]
  }

  /** The position of an id in the storage engine's ascending order of a `timeuuid` column. */
  function Rank(u: Uuid): nat {
    BigEndian(TimeFirst(u))
  }

  lemma {:induction false} BigEndianInjective(a: Bytes, b: Bytes)
    requires |a| == |b| && BigEndian(a) == BigEndian(b)
    ensures a == b
  {
    if a != [] {
      var n := |a| - 1;
      assert 256 * BigEndian(a[..n]) + a[n] == 256 * BigEndian(b[..n]) + b[n];
      assert a[n] == b[n];
      BigEndianInjective(a[..n], b[..n]);
      assert a == a[..n] + [a[n]];
      assert b == b[..n] + [b[n]];
    }
  }

  lemma TimeFirstInjective(a: Uuid, b: Uuid)
    requires TimeFirst(a) == TimeFirst(b)
    ensures a == b
  {
    var t, t' := TimeFirst(a), TimeFirst(b);
    forall k | 0 <= k < 16 ensures a[k] == b[k] {
      if k < 4 {
        assert a[k] == t[k + 4] && b[k] == t'[k + 4];
      } else if k < 6 {
        assert a[k] == t[k - 2] && b[k] == t'[k - 2];
      } else if k < 8 {
        assert a[k] == t[k - 6] && b[k] == t'[k - 6];
      } else {
        assert a[k] == t[k] && b[k] == t'[k];
      }
    }
  }

  /** The storage order is a strict total order on ids: no two distinct ids share a rank. */
  lemma RankInjective(a: Uuid, b: Uuid)
    ensures Rank(a) == Rank(b) <==> a == b
  {
    if Rank(a) == Rank(b) {
      BigEndianInjective(TimeFirst(a), TimeFirst(b));
      TimeFirstInjective(a, b);
    }
  }
}
