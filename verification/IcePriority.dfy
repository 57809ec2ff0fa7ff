/** Candidate priority packing of api/candidate.cc, checked against the formula of
    section 4.1.2.1 of RFC 5245 and the STUN PRIORITY attribute of its section 7.1.2.1. */
module IcePriority {

  const MAX_TURN_SERVERS := 32
  const UINT32_MODULUS := 0x1_0000_0000

  function Pow2(k: nat): nat
    ensures Pow2(k) > 0
  {
    if k == 0 then 1 else 2 * Pow2(k - 1)
  }

  function ShiftLeft8(x: nat): nat {
    0x100 * x
  }

  function ShiftLeft24(x: nat): nat {
    0x100_0000 * x
  }

  /** Conversion to uint32_t. */
  function Truncate(x: nat): nat {
    x % UINT32_MODULUS
  }

  /** Bitwise or. */
  function Or(a: nat, b: nat): nat
    decreases a + b
  {
    if a == 0 && b == 0 then 0
    else 2 * Or(a / 2, b / 2) + (if a % 2 == 1 || b % 2 == 1 then 1 else 0)
  }

  lemma {:induction false} OrZero(a: nat)
    ensures Or(a, 0) == a
  {
    if a != 0 {
      OrZero(a / 2);
    }
  }

  /** Or of a multiple of a power of two and a value below that power is their sum. */
  lemma {:induction false} OrDisjoint(q: nat, b: nat, k: nat)
    requires b < Pow2(k)
    ensures Or(q * Pow2(k), b) == q * Pow2(k) + b
    decreases k
  {
    if k == 0 {
      OrZero(q);
    } else {
      var a := q * Pow2(k - 1);
      assert q * Pow2(k) == 2 * a;
      OrDisjoint(q, b / 2, k - 1);
      assert (2 * a) / 2 == a;
    }
  }

  lemma OrShifted8(q: nat, b: nat)
    requires b < 0x100
    ensures Or(ShiftLeft8(q), b) == ShiftLeft8(q) + b
  {
    assert Pow2(4) == 16;
    assert Pow2(8) == 16 * Pow2(4);
    OrDisjoint(q, b, 8);
    assert q * Pow2(8) == ShiftLeft8(q);
  }

  lemma OrShifted24(q: nat, b: nat)
    requires b < 0x100_0000
    ensures Or(ShiftLeft24(q), b) == ShiftLeft24(q) + b
  {
    assert Pow2(4) == 16;
    assert Pow2(8) == 16 * Pow2(4);
    assert Pow2(12) == 16 * Pow2(8);
    assert Pow2(16) == 16 * Pow2(12);
    assert Pow2(20) == 16 * Pow2(16);
    assert Pow2(24) == 16 * Pow2(20);
    OrDisjoint(q, b, 24);
    assert q * Pow2(24) == ShiftLeft24(q);
  }

  /** The fields of a candidate that its priority depends on: the component, the precedence
      of its address and whether it was obtained through a relay. */
  datatype Candidate = Candidate(component: nat, addressPrecedence: nat, relayed: bool)

  /** The arguments of GetPriority. */
  datatype Preferences = Preferences(typePreference: nat, networkAdapter: nat, relay: nat, adjustLocal: bool)

  function LocalPreference(c: Candidate, p: Preferences): nat {
    var local := Or(ShiftLeft8(p.networkAdapter), c.addressPrecedence) + p.relay;
    if p.adjustLocal && !c.relayed then local + MAX_TURN_SERVERS else local
  }

  /** The or of shifts in the return statement of GetPriority, truncated to 32 bits. */
  function Pack(typePreference: nat, localPreference: nat, tail: nat): nat {
    Truncate(Or(Or(ShiftLeft24(typePreference), ShiftLeft8(localPreference)), tail))
  }

  /** Candidate::GetPriority. */
  function GetPriority(c: Candidate, p: Preferences): nat
    requires c.component <= 256
  {
    Pack(p.typePreference, LocalPreference(c, p), 256 - c.component)
  }

  /** The ranges of RFC 5245 and the source's assertion on the local preference. */
  ghost predicate InRange(c: Candidate, p: Preferences) {
    && 1 <= c.component <= 256
    && c.addressPrecedence < 0x100
    && p.typePreference < 0x100
    && p.networkAdapter * 0x100 + c.addressPrecedence + p.relay + MAX_TURN_SERVERS < 0x1_0000
  }

  function RfcPriority(typePreference: nat, localPreference: nat, component: nat): int {
    0x100_0000 * typePreference + 0x100 * localPreference + (256 - component)
  }

  lemma LocalPreferenceIsSum(c: Candidate, p: Preferences)
    requires InRange(c, p)
    ensures LocalPreference(c, p) ==
            0x100 * p.networkAdapter + c.addressPrecedence + p.relay
            + (if p.adjustLocal && !c.relayed then 32 else 0)
    ensures LocalPreference(c, p) < 0x1_0000
  {
    OrShifted8(p.networkAdapter, c.addressPrecedence);
  }

  lemma OrOfFields(t: nat, local: nat, tail: nat)
    requires local < 0x1_0000 && tail < 0x100
    ensures Or(Or(ShiftLeft24(t), ShiftLeft8(local)), tail) == 0x100_0000 * t + 0x100 * local + tail
  {
    OrShifted24(t, ShiftLeft8(local));
    var upper := 0x1_0000 * t + local;
    assert ShiftLeft8(upper) == ShiftLeft24(t) + ShiftLeft8(local);
    OrShifted8(upper, tail);
  }

  /** Fields of 8, 16 and 8 bits do not overlap, and nothing is truncated. */
  lemma PackedFields(t: nat, local: nat, tail: nat)
    requires t < 0x100 && local < 0x1_0000 && tail < 0x100
    ensures Pack(t, local, tail) == 0x100_0000 * t + 0x100 * local + tail < UINT32_MODULUS
  {
    hide Or, ShiftLeft8, ShiftLeft24;
    OrOfFields(t, local, tail);
    NoTruncation(0x100_0000 * t + 0x100 * local + tail);
  }

  lemma NoTruncation(x: nat)
    requires x < UINT32_MODULUS
    ensures Truncate(x) == x
  {
  }

  /** The or of shifted fields is the sum of section 4.1.2.1 of RFC 5245 and fits 32 bits. */
  lemma PriorityIsRfcSum(c: Candidate, p: Preferences)
    requires InRange(c, p)
    ensures GetPriority(c, p) == RfcPriority(p.typePreference, LocalPreference(c, p), c.component)
    ensures GetPriority(c, p) < UINT32_MODULUS
  {
    hide Pack, LocalPreference;
    LocalPreferenceIsSum(c, p);
    PackedFields(p.typePreference, LocalPreference(c, p), 256 - c.component);
  }

  /** Higher priority means, in this order: higher type preference, higher local preference,
      lower component. */
  ghost predicate Preferred(c: Candidate, p: Preferences, c': Candidate, p': Preferences) {
    var l, l' := LocalPreference(c, p), LocalPreference(c', p');
    || p.typePreference > p'.typePreference
    || (p.typePreference == p'.typePreference && l > l')
    || (p.typePreference == p'.typePreference && l == l' && c.component < c'.component)
  }

  lemma PriorityOrdersLexicographically(c: Candidate, p: Preferences, c': Candidate, p': Preferences)
    requires InRange(c, p) && InRange(c', p')
    ensures GetPriority(c, p) > GetPriority(c', p') <==> Preferred(c, p, c', p')
  {
    hide GetPriority, LocalPreference;
    PriorityIsRfcSum(c, p);
    PriorityIsRfcSum(c', p');
    LocalPreferenceIsSum(c, p);
    LocalPreferenceIsSum(c', p');
  }

  /** The STUN PRIORITY attribute: the peer-reflexive type preference over the low 24 bits. */
  function StunPriority(peerReflexivePreference: nat, priority: nat): nat {
    Or(ShiftLeft24(peerReflexivePreference), priority % 0x100_0000)
  }

  lemma LowBits(t: nat, low: nat)
    requires low < 0x100_0000
    ensures (0x100_0000 * t + low) % 0x100_0000 == low
  {
  }

  lemma StunPriorityIsSum(peerReflexivePreference: nat, c: Candidate, p: Preferences)
    requires InRange(c, p)
    ensures StunPriority(peerReflexivePreference, GetPriority(c, p)) ==
            0x100_0000 * peerReflexivePreference + 0x100 * LocalPreference(c, p) + (256 - c.component)
  {
    hide GetPriority, LocalPreference, Or;
    PriorityIsRfcSum(c, p);
    LocalPreferenceIsSum(c, p);
    var low := 0x100 * LocalPreference(c, p) + (256 - c.component);
    LowBits(p.typePreference, low);
    OrShifted24(peerReflexivePreference, low);
  }

  /** A relayed candidate against a non-relayed one with the same component, adapter and
      address precedence: its STUN priority stays at or below the other's exactly when its
      relay preference exceeds the other's by no more than the adjustment adds to that, the
      number of TURN servers allowed if it is on and nothing if it is off. */
  lemma RelayedNeverOutranks(c: Candidate, p: Preferences, c': Candidate, p': Preferences, prflx: nat)
    requires InRange(c, p) && InRange(c', p')
    requires c.relayed && !c'.relayed
    requires c.component == c'.component && c.addressPrecedence == c'.addressPrecedence
    requires p.networkAdapter == p'.networkAdapter && p.adjustLocal == p'.adjustLocal
    ensures StunPriority(prflx, GetPriority(c, p)) <= StunPriority(prflx, GetPriority(c', p')) <==>
            p.relay <= p'.relay + if p.adjustLocal then 32 else 0
  {
    hide GetPriority, LocalPreference, StunPriority;
    StunPriorityIsSum(prflx, c, p);
    StunPriorityIsSum(prflx, c', p');
    LocalPreferenceIsSum(c, p);
    LocalPreferenceIsSum(c', p');
  }
}
