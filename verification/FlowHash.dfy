/** The hash under which flows are looked up (ovn_flow_match_hash__ in
    ovn/br-controller/br-flow-mgr.c, hash_2words in ovs/lib/hash.h).  A lookup does
    not compare the table: it relies on the hash to tell tables apart, and both
    variants of the hash do, since each is a bijection of the word that holds table
    and priority. */
module FlowHash {
  import opened Common
  import opened OpenFlow
  import opened FlowTable
  import opened FlowManager
  import opened Words

  // ---------- Murmur hash ----------

  function MixWord(data: Word): Word {
    if data == 0 then 0 else Times(Rot15(Times(data, 0xcc9e2d51)), 0x1b873593)
  }

  function MurmurAdd(hash: Word, data: Word): Word {
    Plus(Times(Rot13(Xor(hash, MixWord(data))), 5), 0xe6546b64)
  }

  function MurmurFinish(hash: Word): Word {
    Fold(Times(Fold(Times(Fold(hash, 16), 0x85ebca6b), 13), 0xc2b2ae35), 16)
  }

  function Murmur2Words(x: Word, y: Word): Word {
    MurmurFinish(Xor(MurmurAdd(MurmurAdd(x, 0), y), 8))
  }

  lemma MurmurAddInjective(x: Word, y: Word, data: Word)
    ensures MurmurAdd(x, data) == MurmurAdd(y, data) ==> x == y
  {
    hide Plus, Times, Rot13, Xor, MixWord;
    var m := MixWord(data);
    var x1, y1 := Rot13(Xor(x, m)), Rot13(Xor(y, m));
    PlusInjective(Times(x1, 5), Times(y1, 5), 0xe6546b64);
    TimesInjective(x1, y1, 5, 0xcccccccd);
    RotInjective(Xor(x, m), Xor(y, m));
    XorInjective(x, y, m);
  }

  lemma MurmurFinishInjective(x: Word, y: Word)
    ensures MurmurFinish(x) == MurmurFinish(y) ==> x == y
  {
    hide Times, Fold;
    var x1, y1 := Times(Fold(x, 16), 0x85ebca6b), Times(Fold(y, 16), 0x85ebca6b);
    var x2, y2 := Times(Fold(x1, 13), 0xc2b2ae35), Times(Fold(y1, 13), 0xc2b2ae35);
    FoldInjective(x2, y2, 16);
    TimesInjective(Fold(x1, 13), Fold(y1, 13), 0xc2b2ae35, 0x7ed1b41d);
    FoldInjective(x1, y1, 13);
    TimesInjective(Fold(x, 16), Fold(y, 16), 0x85ebca6b, 0xa5cb9243);
    FoldInjective(x, y, 16);
  }

  lemma Murmur2Injective(x: Word, y: Word, z: Word)
    requires Murmur2Words(x, z) == Murmur2Words(y, z)
    ensures x == y
  {
    hide Xor, MurmurAdd, MurmurFinish;
    var x1, y1 := MurmurAdd(x, 0), MurmurAdd(y, 0);
    var x2, y2 := MurmurAdd(x1, z), MurmurAdd(y1, z);
    MurmurFinishInjective(Xor(x2, 8), Xor(y2, 8));
    XorInjective(x2, y2, 8);
    MurmurAddInjective(x1, y1, z);
    MurmurAddInjective(x, y, 0);
  }

  // ---------- CRC-32C, where the processor has it ----------

  /** One bit of the CRC with polynomial 0x1edc6f41, low bit first. */
  function CrcBit(c: Word): Word {
    if c % 2 == 1 then Xor(c / 2, 0x82f63b78) else c / 2
  }

  function CrcBits(c: Word, n: nat): Word
    decreases n
  {
    if n == 0 then c else CrcBits(CrcBit(c), n - 1)
  }

  function CrcAdd(hash: Word, data: Word): Word { CrcBits(Xor(hash, data), 32) }

  /** The finishing constant has 64 bits, of which the upper half is zero. */
  function CrcFinish(hash: Word, last: Word): Word {
    Fold(Times(CrcAdd(CrcAdd(hash, last), 0), 0x805204f3), 16)
  }

  function Crc2Words(x: Word, y: Word): Word { CrcFinish(CrcAdd(CrcAdd(0, x), y), 23) }

  /** The high bit of the result tells the low bit of the argument. */
  lemma CrcBitHigh(c: Word)
    ensures CrcBit(c) >= 0x8000_0000 <==> c % 2 == 1
  {
    hide XorNat, Shr;
    if c % 2 == 1 {
      Pow2Top();
      XorShr(c / 2, 0x82f63b78, 31);
      ShrNone(c / 2, 31);
      ShrNone(0x82f63b78, 31);
      XorZero(Shr(0x82f63b78, 31));
      ShrNone(CrcBit(c), 31);
    }
  }

  lemma CrcBitInjective(x: Word, y: Word)
    ensures CrcBit(x) == CrcBit(y) ==> x == y
  {
    hide Xor;
    CrcBitHigh(x);
    CrcBitHigh(y);
    XorInjective(x / 2, y / 2, 0x82f63b78);
  }

  lemma {:induction false} CrcBitsInjective(x: Word, y: Word, n: nat)
    ensures CrcBits(x, n) == CrcBits(y, n) ==> x == y
    decreases n
  {
    hide CrcBit;
    if n > 0 {
      CrcBitsInjective(CrcBit(x), CrcBit(y), n - 1);
      CrcBitInjective(x, y);
    }
  }

  lemma CrcAddInjective(x: Word, y: Word, data: Word)
    ensures CrcAdd(x, data) == CrcAdd(y, data) ==> x == y
    ensures CrcAdd(data, x) == CrcAdd(data, y) ==> x == y
  {
    hide CrcBits, Xor;
    CrcBitsInjective(Xor(x, data), Xor(y, data), 32);
    CrcBitsInjective(Xor(data, x), Xor(data, y), 32);
    XorInjective(x, y, data);
  }

  lemma Crc2Injective(x: Word, y: Word, z: Word)
    requires Crc2Words(x, z) == Crc2Words(y, z)
    ensures x == y
  {
    hide CrcAdd, Fold, Times;
    var x1, y1 := CrcAdd(CrcAdd(0, x), z), CrcAdd(CrcAdd(0, y), z);
    var x2, y2 := CrcAdd(CrcAdd(x1, 23), 0), CrcAdd(CrcAdd(y1, 23), 0);
    FoldInjective(Times(x2, 0x805204f3), Times(y2, 0x805204f3), 16);
    TimesInjective(x2, y2, 0x805204f3, 0xb76ab43b);
    CrcAddInjective(CrcAdd(x1, 23), CrcAdd(y1, 23), 0);
    CrcAddInjective(x1, y1, 23);
    CrcAddInjective(CrcAdd(0, x), CrcAdd(0, y), z);
    CrcAddInjective(x, y, 0);
  }

  // ---------- The hash of a flow ----------

  datatype Variant = Murmur | Crc

  function TwoWords(v: Variant, x: Word, y: Word): Word {
    match v
    case Murmur => Murmur2Words(x, y)
    case Crc => Crc2Words(x, y)
  }

  lemma TwoWordsInjective(v: Variant, x: Word, y: Word, z: Word)
    requires TwoWords(v, x, z) == TwoWords(v, y, z)
    ensures x == y
  {
    hide Murmur2Words, Crc2Words;
    match v
    case Murmur => Murmur2Injective(x, y, z);
    case Crc => Crc2Injective(x, y, z);
  }

  /** Table and priority in one word.  The match is hashed by itself, in whatever
      way. */
  function FlowHash(v: Variant, matchHash: Match -> Word): Key -> Word {
    (k: Key) => TwoWords(v, k.table * 0x1_0000 + k.priority, matchHash(k.match_))
  }

  /** MAIN RESULT.  Whatever the hash of a match, and in both variants, the hash of a
      flow tells apart every two tables of one match and priority: so a lookup that
      does not compare the table finds the flow of its key and no other. */
  lemma HashSeparates(v: Variant, matchHash: Match -> Word)
    ensures Separates(FlowHash(v, matchHash))
    ensures forall flows: map<Key, Flow>, k, r ::
              LookupAnswer(flows, FlowHash(v, matchHash), k, r) ==> r == if k in flows then Some(k) else None
  {
    hide TwoWords, LookupAnswer;
    var hash := FlowHash(v, matchHash);
    forall a, b | SameSlot(hash, a, b) ensures a == b {
      TwoWordsInjective(v, a.table * 0x1_0000 + a.priority, b.table * 0x1_0000 + b.priority, matchHash(a.match_));
    }
    LookupExact(hash);
  }
}
