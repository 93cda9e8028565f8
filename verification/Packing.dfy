/** How multiword.hpp packs descriptor pointers and state words into 64 bits, and how
    write_mutable and cas_mutable change one field of a state word that others change too. */
module Packing {
  type Bits = bv64

  const SEQUENCE_MASK: Bits := 0xFFFF_FFFF
  const MUTABLES_MASK: Bits := 0xFFFF_FFFF
  const PID_MASK: Bits := 0xFFFF
  const FLAG_MASK: Bits := 0xFFFF

  /** The flag bits of the two descriptor types: the highest one and the one below it. */
  const DCSS_FLAG: Bits := 0x8000
  const KCAS_FLAG: Bits := 0x4000

  // ---------- state words: [ mutables | sequence ] ----------

  function SequenceInc(sequence: Bits): Bits {
    (sequence + 1) & SEQUENCE_MASK
  }

  /** The sequence counts up by one and wraps at 32 bits, so that create_new makes it odd and then
      even again, also at the wrap, with another even number each time. */
  lemma SequenceParity(sequence: Bits)
    requires sequence <= SEQUENCE_MASK
    ensures SequenceInc(sequence) == if sequence == SEQUENCE_MASK then 0 else sequence + 1
    ensures sequence & 1 == 0 ==> SequenceInc(sequence) & 1 == 1 && SequenceInc(SequenceInc(sequence)) & 1 == 0
    ensures SequenceInc(SequenceInc(sequence)) != sequence
  {
  }

  function ExtractState(state: Bits): (Bits, Bits) {
    ((state >> 32) & MUTABLES_MASK, state & SEQUENCE_MASK)
  }

  function CombineState(mutables: Bits, sequence: Bits): Bits {
    ((mutables & MUTABLES_MASK) << 32) | (sequence & SEQUENCE_MASK)
  }

  lemma StateRoundTrip(mutables: Bits, sequence: Bits, state: Bits)
    ensures ExtractState(CombineState(mutables, sequence)) == (mutables & MUTABLES_MASK, sequence & SEQUENCE_MASK)
    ensures CombineState(ExtractState(state).0, ExtractState(state).1) == state
  {
  }

  // ---------- pointers: [ flag | pid | sequence ] ----------

  function ExtractPointer(pointer: Bits): (Bits, Bits, Bits) {
    ((pointer >> 32 >> 16) & FLAG_MASK, (pointer >> 32) & PID_MASK, pointer & SEQUENCE_MASK)
  }

  function CombinePointer(flag: Bits, pid: Bits, sequence: Bits): Bits {
    ((flag & FLAG_MASK) << 32 << 16) | ((pid & PID_MASK) << 32) | (sequence & SEQUENCE_MASK)
  }

  lemma PointerRoundTrip(flag: Bits, pid: Bits, sequence: Bits, pointer: Bits)
    ensures ExtractPointer(CombinePointer(flag, pid, sequence))
         == (flag & FLAG_MASK, pid & PID_MASK, sequence & SEQUENCE_MASK)
    ensures var (f, p, s) := ExtractPointer(pointer); CombinePointer(f, p, s) == pointer
  {
  }

  predicate HasFlag(bit: Bits, pointer: Bits) {
    ExtractPointer(pointer).0 & bit == bit
  }

  function ToggleFlag(bit: Bits, pointer: Bits): Bits {
    var (flag, pid, sequence) := ExtractPointer(pointer);
    CombinePointer(flag ^ bit, pid, sequence)
  }

  /** Flagging is undone by unflagging, and leaves owner and sequence number readable. */
  lemma FlagRoundTrip(bit: Bits, pointer: Bits)
    requires bit == DCSS_FLAG || bit == KCAS_FLAG
    ensures ToggleFlag(bit, ToggleFlag(bit, pointer)) == pointer
    ensures HasFlag(bit, ToggleFlag(bit, pointer)) <==> !HasFlag(bit, pointer)
    ensures ExtractPointer(ToggleFlag(bit, pointer)).1 == ExtractPointer(pointer).1
    ensures ExtractPointer(ToggleFlag(bit, pointer)).2 == ExtractPointer(pointer).2
  {
  }

  // ---------- shared words: plain value, DCSS pointer or KCAS pointer ----------

  /** The three things the code takes a word for, testing the DCSS flag before the KCAS flag. */
  datatype Reading = Value(bits: Bits) | DcssPointer(pid: Bits, sequence: Bits) | KcasPointer(pid: Bits, sequence: Bits)

  function Classify(word: Bits): Reading {
    var (flag, pid, sequence) := ExtractPointer(word);
    if HasFlag(DCSS_FLAG, word) then DcssPointer(pid, sequence)
    else if HasFlag(KCAS_FLAG, word) then KcasPointer(pid, sequence)
    else Value(word)
  }

  function Store(r: Reading): Bits {
    match r
    case Value(bits) => bits
    case DcssPointer(pid, sequence) => ToggleFlag(DCSS_FLAG, CombinePointer(0, pid, sequence))
    case KcasPointer(pid, sequence) => ToggleFlag(KCAS_FLAG, CombinePointer(0, pid, sequence))
  }

  /** What may be stored: values without flag bits, and pointers whose parts fit their fields. */
  predicate Storable(r: Reading) {
    match r
    case Value(bits) => !HasFlag(DCSS_FLAG, bits) && !HasFlag(KCAS_FLAG, bits)
    case DcssPointer(pid, sequence) => pid <= PID_MASK && sequence <= SEQUENCE_MASK
    case KcasPointer(pid, sequence) => pid <= PID_MASK && sequence <= SEQUENCE_MASK
  }

  lemma FlaggedPointer(bit: Bits, pid: Bits, sequence: Bits)
    requires bit == DCSS_FLAG || bit == KCAS_FLAG
    requires pid <= PID_MASK && sequence <= SEQUENCE_MASK
    ensures ExtractPointer(ToggleFlag(bit, CombinePointer(0, pid, sequence))) == (bit, pid, sequence)
  {
    PointerRoundTrip(0, pid, sequence, 0);
    PointerRoundTrip(bit, pid, sequence, 0);
    assert pid & PID_MASK == pid && sequence & SEQUENCE_MASK == sequence;
    assert (0 as Bits) ^ bit == bit && bit & FLAG_MASK == bit;
  }

  /** Values, DCSS pointers and KCAS pointers never get mixed up: each reads back as what was stored. */
  lemma StoreRoundTrip(r: Reading)
    requires Storable(r)
    ensures Classify(Store(r)) == r
  {
    match r
    case Value(_) =>
    case DcssPointer(pid, sequence) => FlaggedPointer(DCSS_FLAG, pid, sequence);
    case KcasPointer(pid, sequence) => FlaggedPointer(KCAS_FLAG, pid, sequence);
  }

  lemma StoreInjective(x: Reading, y: Reading)
    requires Storable(x) && Storable(y) && Store(x) == Store(y)
    ensures x == y
  {
    StoreRoundTrip(x);
    StoreRoundTrip(y);
  }

  // ---------- changing one field of a state word ----------

  predicate FieldMask(mask: Bits) {
    mask != 0 && mask <= MUTABLES_MASK
  }

  function Field(state: Bits, mask: Bits): Bits {
    ExtractState(state).0 & mask
  }

  function WithField(state: Bits, mask: Bits, value: Bits): Bits {
    var (mutables, sequence) := ExtractState(state);
    CombineState((mutables & !mask) | value, sequence)
  }

  /** Only the masked field changes; the sequence number and the other fields stay. */
  lemma WithFieldOnly(state: Bits, mask: Bits, value: Bits)
    requires FieldMask(mask) && value & !mask == 0
    ensures Field(WithField(state, mask, value), mask) == value
    ensures ExtractState(WithField(state, mask, value)).1 == ExtractState(state).1
    ensures ExtractState(WithField(state, mask, value)).0 & !mask == ExtractState(state).0 & !mask
  {
  }

  datatype CasResult = Bottom | Found(field: Bits)

  /** All stores of the first rounds, one after the other. */
  function Flat(rounds: seq<seq<Bits>>): seq<Bits> {
    if rounds == [] then [] else Flat(rounds[..|rounds| - 1]) + rounds[|rounds| - 1]
  }

  lemma FlatNext(rounds: seq<seq<Bits>>, k: nat)
    requires k < |rounds|
    ensures Flat(rounds[..k + 1]) == Flat(rounds[..k]) + rounds[k]
  {
    assert rounds[..k + 1][..k] == rounds[..k];
  }

  function Last(words: seq<Bits>): Bits
    requires words != []
  {
    words[|words| - 1]
  }

  /** cas_mutable on a word that nobody else changes in between: what it stores, and its answer.
      Bottom says that the sequence number has moved on; otherwise the answer is the field's value
      afterwards, which is newValue exactly when the field was as expected or was newValue already. */
  ghost predicate CasOf(word: Bits, pointer: Bits, mask: Bits, expectedValue: Bits, newValue: Bits, stored: seq<Bits>, r: CasResult) {
    var matches := ExtractState(word).1 == ExtractPointer(pointer).2;
    && stored == (if matches && Field(word, mask) == expectedValue then [WithField(word, mask, newValue)] else [])
    && r == (if matches then Found(Field(Last([word] + stored), mask)) else Bottom)
  }

  lemma CasWins(word: Bits, pointer: Bits, mask: Bits, expectedValue: Bits, newValue: Bits)
    requires FieldMask(mask) && newValue & !mask == 0
    requires ExtractState(word).1 == ExtractPointer(pointer).2 && Field(word, mask) == expectedValue
    ensures CasOf(word, pointer, mask, expectedValue, newValue, [WithField(word, mask, newValue)], Found(newValue))
  {
    WithFieldOnly(word, mask, newValue);
  }

  lemma CasLoses(word: Bits, pointer: Bits, mask: Bits, expectedValue: Bits, newValue: Bits)
    requires ExtractState(word).1 != ExtractPointer(pointer).2 || Field(word, mask) != expectedValue
    ensures CasOf(word, pointer, mask, expectedValue, newValue, [],
                  if ExtractState(word).1 != ExtractPointer(pointer).2 then Bottom else Found(Field(word, mask)))
  {
  }

  /** A descriptor's state word, with the history of all stores to it, by whomever. In the methods,
      "others" is what other threads store between a load and the CAS after it, round by round; a
      round without an entry is undisturbed. */
  class Slot {
    var state: Bits
    ghost var stores: seq<Bits>

    ghost predicate Valid()
      reads this
    {
      stores != [] && state == Last(stores)
    }

    constructor (state: Bits)
      ensures Valid() && stores == [state]
    {
      this.state, stores := state, [state];
    }

    method Store(word: Bits)
      requires Valid()
      modifies this
      ensures Valid() && stores == old(stores) + [word]
    {
      state, stores := word, stores + [word];
    }

    method Disturb(words: seq<Bits>)
      requires Valid()
      modifies this
      ensures Valid() && stores == old(stores) + words
    {
      var i := 0;
      while i < |words|
        invariant i <= |words| && Valid() && stores == old(stores) + words[..i]
      {
        Store(words[i]);
        i := i + 1;
      }
      assert words[..i] == words;
    }

    /** compare_exchange, after others have stored words. */
    method CompareExchange(expected: Bits, replacement: Bits, words: seq<Bits>) returns (success: bool)
      requires Valid()
      modifies this
      ensures Valid() && success == (Last(old(stores) + words) == expected)
      ensures stores == old(stores) + words + if success then [replacement] else []
    {
      Disturb(words);
      success := state == expected;
      if success { Store(replacement); }
    }

    /** The call is settled by the word that is there after the stores of the first "rounds" rounds.
        If its sequence number matches, the very next store is this call's, and writes the field into
        that word; otherwise the call stores nothing. */
    method WriteMutable(pointer: Bits, mask: Bits, value: Bits, others: seq<seq<Bits>>) returns (rounds: nat)
      requires Valid() && FieldMask(mask) && value & !mask == 0
      modifies this
      ensures Valid() && rounds <= |others|
      ensures var before := old(stores) + Flat(others[..rounds]);
        stores == before +
          if ExtractState(Last(before)).1 == ExtractPointer(pointer).2 then [WithField(Last(before), mask, value)] else []
    {
      var sequence := ExtractPointer(pointer).2;
      rounds := 0;
      while true
        invariant Valid() && rounds <= |others| && stores == old(stores) + Flat(others[..rounds])
        decreases |others| - rounds
      {
        var expected := state;
        if ExtractState(expected).1 != sequence {
          return;
        }
        var words := if rounds < |others| then others[rounds] else [];
        ghost var before := stores + words;
        var success := CompareExchange(expected, WithField(expected, mask, value), words);
        if rounds < |others| {
          FlatNext(others, rounds);
          rounds := rounds + 1;
        }
        assert before == old(stores) + Flat(others[..rounds]);
        if success {
          return;
        }
      }
    }

    /** Likewise: the call is one undisturbed cas_mutable on the word that is there after the first
        "rounds" rounds, with no other store between that word and the call's own. */
    method CasMutable(pointer: Bits, mask: Bits, expectedValue: Bits, newValue: Bits, others: seq<seq<Bits>>)
      returns (r: CasResult, rounds: nat)
      requires Valid() && FieldMask(mask) && expectedValue & !mask == 0 && newValue & !mask == 0
      modifies this
      ensures Valid() && rounds <= |others|
      ensures var before := old(stores) + Flat(others[..rounds]);
        && before <= stores
        && CasOf(Last(before), pointer, mask, expectedValue, newValue, stores[|before|..], r)
    {
      var sequence := ExtractPointer(pointer).2;
      rounds := 0;
      while true
        invariant Valid() && rounds <= |others| && stores == old(stores) + Flat(others[..rounds])
        decreases |others| - rounds
      {
        var expected := state;
        if ExtractState(expected).1 != sequence || Field(expected, mask) != expectedValue {
          r := if ExtractState(expected).1 != sequence then Bottom else Found(Field(expected, mask));
          CasLoses(expected, pointer, mask, expectedValue, newValue);
          assert stores[|stores|..] == [];
          return;
        }
        CasWins(expected, pointer, mask, expectedValue, newValue);
        var words := if rounds < |others| then others[rounds] else [];
        var replacement := WithField(expected, mask, newValue);
        ghost var before := stores + words;
        var success := CompareExchange(expected, replacement, words);
        if rounds < |others| {
          FlatNext(others, rounds);
          rounds := rounds + 1;
        }
        assert before == old(stores) + Flat(others[..rounds]);
        if success {
          r := Found(newValue);
          assert stores[|before|..] == [replacement];
          return;
        }
      }
    }
  }
}
