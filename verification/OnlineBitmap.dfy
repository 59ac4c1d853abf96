/** The online query: the server packs one bit a peer, the client unpacks them. */
module OnlineBitmap {
  import opened Text
  import opened Clock
  import opened Peers
  import opened Registrar

  type Byte = bv8

  /** Bits run from the left of each byte. */
  function Mask(i: nat): Byte { (1 as Byte) << (7 - i % 8) }

  predicate Bit(states: seq<Byte>, i: nat)
    requires i < 8 * |states|
  {
    states[i / 8] & Mask(i) == Mask(i)
  }

  predicate Online(peers: map<string, Peer>, now: int, id: string) { id in peers && !Stale(now, peers[id]) }

  /** One bit for each id, rounded up to whole bytes with zero bits. */
  predicate Packs(states: seq<Byte>, ids: seq<string>, peers: map<string, Peer>, now: int) {
    && |states| == (|ids| + 7) / 8
    && forall i :: 0 <= i < 8 * |states| ==> (Bit(states, i) <==> i < |ids| && Online(peers, now, ids[i]))
  }

  lemma MaskCases(i: nat)
    ensures Mask(i) == match i % 8 {
      case 0 => 0x80 case 1 => 0x40 case 2 => 0x20 case 3 => 0x10 case 4 => 8 case 5 => 4 case 6 => 2 case _ => 1 }
  {
  }

  lemma SetBit(b: Byte, i: nat, j: nat)
    ensures (b | Mask(i)) & Mask(j) == Mask(j) <==> b & Mask(j) == Mask(j) || i % 8 == j % 8
  {
    MaskCases(i);
    MaskCases(j);
  }

  lemma NoBits(i: nat)
    ensures 0 & Mask(i) != Mask(i)
  {
    MaskCases(i);
  }

  method HandleOnlineRequest(pm: PeerMap, now: int, ids: seq<string>) returns (states: array<Byte>)
    ensures fresh(states) && Packs(states[..], ids, pm.peers, now)
  {
    states := new Byte[(|ids| + 7) / 8](_ => 0);
    forall j: nat | j < 8 * states.Length ensures !Bit(states[..], j) { NoBits(j); }
    var i := 0;
    while i < |ids|
      invariant 0 <= i <= |ids| && fresh(states) && states.Length == (|ids| + 7) / 8
      invariant forall j :: 0 <= j < 8 * states.Length ==>
        (Bit(states[..], j) <==> j < i && Online(pm.peers, now, ids[j]))
    {
      if ids[i] in pm.peers && AsI32(Elapsed(now, pm.peers[ids[i]].lastReg)) < REG_TIMEOUT {
        ghost var was := states[..];
        states[i / 8] := states[i / 8] | Mask(i);
        forall j: nat | j < 8 * states.Length ensures Bit(states[..], j) <==> Bit(was, j) || j == i {
          SetBit(was[i / 8], i, j);
        }
      }
      i := i + 1;
    }
  }

  /** The ids from position `i` on whose bit is `on`. */
  function Pick(ids: seq<string>, states: seq<Byte>, i: nat, on: bool): seq<string>
    requires |ids| <= 8 * |states| && i <= |ids|
    decreases |ids| - i
  {
    if i == |ids| then []
    else if Bit(states, i) == on then [ids[i]] + Pick(ids, states, i + 1, on)
    else Pick(ids, states, i + 1, on)
  }

  /** The client's reading; `None` stands for its out-of-bounds panic on a reply that is too short. */
  method QueryOnlineStates(ids: seq<string>, states: seq<Byte>) returns (r: Option<(seq<string>, seq<string>)>)
    ensures r.None? <==> 8 * |states| < |ids|
    ensures r.Some? ==> r.value == (Pick(ids, states, 0, true), Pick(ids, states, 0, false))
  {
    var onlines, offlines := [], [];
    var i := 0;
    while i < |ids|
      invariant 0 <= i <= |ids| && i <= 8 * |states|
      invariant |ids| <= 8 * |states| ==>
        onlines + Pick(ids, states, i, true) == Pick(ids, states, 0, true)
        && offlines + Pick(ids, states, i, false) == Pick(ids, states, 0, false)
    {
      if i / 8 >= |states| { return None; }
      var bitValue := (1 as Byte) << (7 - i % 8);
      assert bitValue == Mask(i);
      if states[i / 8] & bitValue == bitValue {
        assert Bit(states, i);
        onlines := onlines + [ids[i]];
      } else {
        offlines := offlines + [ids[i]];
      }
      i := i + 1;
    }
    assert onlines + [] == onlines && offlines + [] == offlines;
    return Some((onlines, offlines));
  }

  /** The ids that are, or are not, online. */
  function Those(ids: seq<string>, peers: map<string, Peer>, now: int, on: bool): seq<string> {
    if ids == [] then []
    else if Online(peers, now, ids[0]) == on then [ids[0]] + Those(ids[1..], peers, now, on)
    else Those(ids[1..], peers, now, on)
  }

  /** Round trip: reading a packed answer gives back each id's status, in order. */
  lemma {:induction false} RoundTrip(states: seq<Byte>, ids: seq<string>, peers: map<string, Peer>, now: int, i: nat,
      on: bool)
    requires Packs(states, ids, peers, now) && i <= |ids|
    ensures Pick(ids, states, i, on) == Those(ids[i..], peers, now, on)
    decreases |ids| - i
  {
    if i < |ids| {
      RoundTrip(states, ids, peers, now, i + 1, on);
      assert ids[i..][0] == ids[i] && ids[i..][1..] == ids[i + 1..];
    }
  }

  lemma Split(x: string, s: seq<string>)
    ensures multiset([x] + s) == multiset{x} + multiset(s)
  {
  }

  /** Whatever the bytes, onlines and offlines partition the query. */
  lemma {:induction false} Partition(ids: seq<string>, states: seq<Byte>, i: nat)
    requires |ids| <= 8 * |states| && i <= |ids|
    ensures multiset(Pick(ids, states, i, true)) + multiset(Pick(ids, states, i, false)) == multiset(ids[i..])
    decreases |ids| - i
  {
    if i < |ids| {
      Partition(ids, states, i + 1);
      assert ids[i..] == [ids[i]] + ids[i + 1..];
      Split(ids[i], Pick(ids, states, i + 1, true));
      Split(ids[i], Pick(ids, states, i + 1, false));
    }
  }

  lemma ByteByBits(b: Byte, c: Byte)
    requires forall j: nat :: j < 8 ==> (b & Mask(j) == Mask(j) <==> c & Mask(j) == Mask(j))
    ensures b == c
  {
    MaskCases(0); MaskCases(1); MaskCases(2); MaskCases(3); MaskCases(4); MaskCases(5); MaskCases(6); MaskCases(7);
    assert b & Mask(0) == Mask(0) <==> c & Mask(0) == Mask(0);
    assert b & Mask(1) == Mask(1) <==> c & Mask(1) == Mask(1);
    assert b & Mask(2) == Mask(2) <==> c & Mask(2) == Mask(2);
    assert b & Mask(3) == Mask(3) <==> c & Mask(3) == Mask(3);
    assert b & Mask(4) == Mask(4) <==> c & Mask(4) == Mask(4);
    assert b & Mask(5) == Mask(5) <==> c & Mask(5) == Mask(5);
    assert b & Mask(6) == Mask(6) <==> c & Mask(6) == Mask(6);
    assert b & Mask(7) == Mask(7) <==> c & Mask(7) == Mask(7);
  }

  lemma SameBit(s: seq<Byte>, t: seq<Byte>, m: nat, j: nat)
    requires m < |s| == |t| && j < 8
    requires Bit(s, 8 * m + j) <==> Bit(t, 8 * m + j)
    ensures s[m] & Mask(j) == Mask(j) <==> t[m] & Mask(j) == Mask(j)
  {
    assert (8 * m + j) / 8 == m && (8 * m + j) % 8 == j % 8;
  }

  /** There is only one packed answer, padding included. */
  lemma PackingUnique(s: seq<Byte>, t: seq<Byte>, ids: seq<string>, peers: map<string, Peer>, now: int)
    requires Packs(s, ids, peers, now) && Packs(t, ids, peers, now)
    ensures s == t
  {
    forall m | 0 <= m < |s| ensures s[m] == t[m] {
      forall j: nat | j < 8 ensures s[m] & Mask(j) == Mask(j) <==> t[m] & Mask(j) == Mask(j) {
        SameBit(s, t, m, j);
      }
      ByteByBits(s[m], t[m]);
    }
  }
}
