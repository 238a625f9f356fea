/**
 The `user_data` of a per-connection SQE: bit 63 zero, the operation tag in bits 60..63, the
 connection's generation in bits 32..60, the slab index in bits 0..32. Bit operations on `u64`
 are written with the powers of two they stand for.
 */
module UserData {
  import opened Bytes

  const BIT_32: nat := 0x1_0000_0000
  const BIT_60: nat := 0x1000_0000_0000_0000
  const GENERATIONS: nat := 0x1000_0000

  datatype Tag = Recv | Write | RecvCancel

  function TagBits(tag: Tag): (bits: nat)
    ensures 1 <= bits <= 4
  {
    match tag case Write => 1 case Recv => 2 case RecvCancel => 4
  }

  datatype Token = Token(idx: nat, generation: nat)

  function Encode(tag: Tag, idx: nat, generation: nat): (userData: nat) {
    TagBits(tag) * BIT_60 + (generation % GENERATIONS) * BIT_32 + idx % BIT_32
  }

  /** The token, if the value is not a special one and carries this tag. */
  function Decode(userData: nat, tag: Tag): Option<Token> {
    if userData / (8 * BIT_60) == 0 && (userData / BIT_60) % 8 == TagBits(tag)
    then Some(Token(userData % BIT_32, (userData / BIT_32) % GENERATIONS))
    else None
  }

  function SlotOf(userData: nat): nat {
    userData % BIT_32
  }

  lemma EncodeParts(tag: Tag, idx: nat, generation: nat)
    requires idx < BIT_32 && generation < GENERATIONS
    ensures var u := Encode(tag, idx, generation);
            && u < 8 * BIT_60 && u / BIT_60 == TagBits(tag)
            && (u / BIT_32) % GENERATIONS == generation && u % BIT_32 == idx
  {
    var u := Encode(tag, idx, generation);
    assert generation * BIT_32 + idx < BIT_60;
    assert u / BIT_32 == TagBits(tag) * GENERATIONS + generation;
  }

  /** Decoding with the same tag gives the token back, with any other tag nothing. */
  lemma RoundTrip(tag: Tag, other: Tag, idx: nat, generation: nat)
    requires idx < 0x1_0000_0000 && generation < 0x1000_0000
    ensures Encode(tag, idx, generation) < 0x1_0000_0000_0000_0000 && SlotOf(Encode(tag, idx, generation)) == idx
    ensures Decode(Encode(tag, idx, generation), other) ==
            if other == tag then Some(Token(idx, generation)) else None
  {
    EncodeParts(tag, idx, generation);
  }

  /** Different operations, slots or generations have different `user_data`. */
  lemma Injective(tag: Tag, idx: nat, generation: nat, tag': Tag, idx': nat, generation': nat)
    requires idx < 0x1_0000_0000 && idx' < 0x1_0000_0000 && generation < 0x1000_0000 && generation' < 0x1000_0000
    requires Encode(tag, idx, generation) == Encode(tag', idx', generation')
    ensures tag == tag' && idx == idx' && generation == generation'
  {
    EncodeParts(tag, idx, generation);
    EncodeParts(tag', idx', generation');
  }

  /** The six special values at the top of `u64` never decode as a connection. */
  lemma SpecialsDecodeToNothing(n: nat, tag: Tag)
    requires n <= 5
    ensures Decode(0x1_0000_0000_0000_0000 - 1 - n, tag) == None
  {
  }

  /** Whatever decodes is the encoding of its token: nothing else reaches a connection. */
  lemma DecodeExact(userData: nat, tag: Tag)
    requires Decode(userData, tag).Some?
    ensures var t := Decode(userData, tag).value;
            userData == Encode(tag, t.idx, t.generation) && t.idx < BIT_32 && t.generation < GENERATIONS
  {
    var high := userData / BIT_32;
    assert high / GENERATIONS == userData / BIT_60;
    assert (userData / BIT_60) % 8 == userData / BIT_60;
  }
}
