/**
 * The day-state store: the selected day, block and clinic type, and three
 * keyed tables — resident presence per patient slot, the clinic type
 * chosen per block, and resident presence per block. Keys are
 * "day|block" and "day|block|slot"; a call whose key cannot be formed
 * changes nothing and reads nothing.
 *
 * Arguments the source accepts as any value are modelled as strings, with
 * None for null or undefined; a slot index is None when it is not a number.
 */
module DayState {
  import opened Common

  // ---------------------------------------------------------------- keys

  /** A truthy string argument: present and not empty. */
  predicate Given(s: Option<string>)
  {
    s.Some? && s.value != ""
  }

  /** createBlockKey: "day|block", or None when either is missing or empty. */
  function BlockKey(day: Option<string>, block: Option<string>): (k: Option<string>)
    ensures k.Some? <==> Given(day) && Given(block)
  {
    if !Given(day) || !Given(block) then None else Some(day.value + "|" + block.value)
  }

  /**
   * createResidentKey: "day|block|slot", or None when one is missing or the
   * slot is not a number. Slots are whole numbers here.
   */
  function ResidentKey(day: Option<string>, block: Option<string>, slot: Option<int>): (k: Option<string>)
    ensures k.Some? <==> Given(day) && Given(block) && slot.Some?
  {
    if !Given(day) || !Given(block) || slot.None? then None
    else Some(day.value + "|" + block.value + "|" + IntToString(slot.value))
  }

  /** Reading a signed decimal back: the inverse of IntToString. */
  function ParseInt(s: string): int
  {
    if |s| > 0 && s[0] == '-' && AllDigits(s[1..]) then 0 - ParseDigits(s[1..])
    else if AllDigits(s) then ParseDigits(s)
    else 0
  }

  lemma IntToStringRoundTrip(i: int)
    ensures ParseInt(IntToString(i)) == i
    ensures '|' !in IntToString(i)
  {
    if i < 0 {
      ParseNatToString(-i);
      assert IntToString(i)[1..] == NatToString(-i);
    } else {
      ParseNatToString(i);
    }
  }

  /** A string split at its two separators, when neither part holds one. */
  lemma SplitKey(a: string, b: string)
    requires '|' !in a && '|' !in b
    ensures Split(a + "|" + b, '|') == [a, b]
  {
    SplitAtSeparator(a, b, '|');
    SplitNoSeparator(b, '|');
  }

  /**
   * Block keys of days and blocks without a '|' are distinct for distinct
   * (day, block) pairs, so a setter for one block never touches another's
   * entry.
   */
  lemma BlockKeyInjective(d1: Option<string>, b1: Option<string>, d2: Option<string>, b2: Option<string>)
    requires Given(d1) && Given(b1) && Given(d2) && Given(b2)
    requires '|' !in d1.value && '|' !in b1.value && '|' !in d2.value && '|' !in b2.value
    ensures BlockKey(d1, b1) == BlockKey(d2, b2) <==> d1 == d2 && b1 == b2
  {
    if BlockKey(d1, b1) == BlockKey(d2, b2) {
      SplitKey(d1.value, b1.value);
      SplitKey(d2.value, b2.value);
    }
  }

  lemma SplitKey3(a: string, b: string, c: string)
    requires '|' !in a && '|' !in b && '|' !in c
    ensures Split(a + "|" + b + "|" + c, '|') == [a, b, c]
  {
    assert a + "|" + b + "|" + c == a + ['|'] + (b + "|" + c);
    SplitAtSeparator(a, b + "|" + c, '|');
    SplitKey(b, c);
  }

  /** Resident keys are likewise distinct for distinct (day, block, slot) triples. */
  lemma ResidentKeyInjective(d1: Option<string>, b1: Option<string>, s1: int,
                             d2: Option<string>, b2: Option<string>, s2: int)
    requires Given(d1) && Given(b1) && Given(d2) && Given(b2)
    requires '|' !in d1.value && '|' !in b1.value && '|' !in d2.value && '|' !in b2.value
    ensures ResidentKey(d1, b1, Some(s1)) == ResidentKey(d2, b2, Some(s2)) <==> d1 == d2 && b1 == b2 && s1 == s2
  {
    if ResidentKey(d1, b1, Some(s1)) == ResidentKey(d2, b2, Some(s2)) {
      IntToStringRoundTrip(s1);
      IntToStringRoundTrip(s2);
      SplitKey3(d1.value, b1.value, IntToString(s1));
      SplitKey3(d2.value, b2.value, IntToString(s2));
      assert IntToString(s1) == IntToString(s2);
    }
  }

  // ---------------------------------------------------------------- tables

  /** A table entry after a write: set under the key, deleted for None, untouched without a key. */
  function Write<V>(m: map<string, V>, key: Option<string>, v: Option<V>): map<string, V>
  {
    if key.None? then m
    else if v.None? then m - {key.value}
    else m[key.value := v.value]
  }

  /** A table read: undefined (None) without a key or without an entry. */
  function Read<V>(m: map<string, V>, key: Option<string>): (r: Option<V>)
    ensures r.Some? <==> key.Some? && key.value in m
    ensures r.Some? ==> r.value == m[key.value]
  {
    if key.Some? && key.value in m then Some(m[key.value]) else None
  }

  /**
   * Reading back what was just written under a key gives it (nothing after
   * a delete), and every other key reads as before.
   */
  lemma ReadAfterWrite<V>(m: map<string, V>, key: Option<string>, v: Option<V>, other: Option<string>)
    requires key.Some?
    ensures Read(Write(m, key, v), key) == v
    ensures other != key ==> Read(Write(m, key, v), other) == Read(m, other)
  {
  }

  /** Without a key a write changes nothing. */
  lemma WriteWithoutKey<V>(m: map<string, V>, v: Option<V>)
    ensures Write(m, None, v) == m
  {
  }

  // ---------------------------------------------------------------- the store

  class Store {
    var currentDay: Option<string>
    var currentBlock: Option<string>
    var clinicType: Option<string>
    var residentMap: map<string, bool>
    var clinicSelections: map<string, string>
    var blockResidentPresence: map<string, bool>

    /** The store as the module first defines it: nothing selected, every table empty. */
    constructor ()
      ensures currentDay.None? && currentBlock.None? && clinicType.None?
      ensures residentMap == map[] && clinicSelections == map[] && blockResidentPresence == map[]
    {
      currentDay, currentBlock, clinicType := None, None, None;
      residentMap, clinicSelections, blockResidentPresence := map[], map[], map[];
    }

    /** setDay: the selection fields take the arguments, null or undefined becoming null. */
    method SetDay(day: Option<string>, block: Option<string>, clinic: Option<string>)
      modifies this`currentDay, this`currentBlock, this`clinicType
      ensures currentDay == day && currentBlock == block && clinicType == clinic
    {
      currentDay := day;
      currentBlock := block;
      clinicType := clinic;
    }

    /** replaceResidentMap: a copy of the given map, or an empty one. */
    method ReplaceResidentMap(m: Option<map<string, bool>>)
      modifies this`residentMap
      ensures residentMap == if m.Some? then m.value else map[]
    {
      residentMap := if m.Some? then m.value else map[];
    }

    method SetClinicSelection(day: Option<string>, block: Option<string>, clinic: Option<string>)
      modifies this`clinicSelections
      ensures clinicSelections == Write(old(clinicSelections), BlockKey(day, block), clinic)
    {
      var key := BlockKey(day, block);
      if key.None? {
        return;
      }
      if clinic.None? {
        clinicSelections := clinicSelections - {key.value};
      } else {
        clinicSelections := clinicSelections[key.value := clinic.value];
      }
    }

    function GetClinicSelection(day: Option<string>, block: Option<string>): (r: Option<string>)
      reads this
      ensures r.Some? ==>
        Given(day) && Given(block) &&
        BlockKey(day, block).value in clinicSelections && clinicSelections[BlockKey(day, block).value] == r.value
      ensures BlockKey(day, block).Some? && BlockKey(day, block).value in clinicSelections ==> r.Some?
    {
      Read(clinicSelections, BlockKey(day, block))
    }

    /** setResidentPresence: the truthiness of `present`, under the slot's key. */
    method SetResidentPresence(day: Option<string>, block: Option<string>, slot: Option<int>, present: Option<Json>)
      modifies this`residentMap
      ensures residentMap == Write(old(residentMap), ResidentKey(day, block, slot), Some(Truthy(present)))
    {
      var key := ResidentKey(day, block, slot);
      if key.None? {
        return;
      }
      residentMap := residentMap[key.value := Truthy(present)];
    }

    function GetResidentPresence(day: Option<string>, block: Option<string>, slot: Option<int>): (r: Option<bool>)
      reads this
      ensures r.Some? ==>
        Given(day) && Given(block) && slot.Some? &&
        ResidentKey(day, block, slot).value in residentMap && residentMap[ResidentKey(day, block, slot).value] == r.value
      ensures ResidentKey(day, block, slot).Some? && ResidentKey(day, block, slot).value in residentMap ==> r.Some?
    {
      Read(residentMap, ResidentKey(day, block, slot))
    }

    /** setBlockResidentPresence: null or undefined deletes, anything else stores its truthiness. */
    method SetBlockResidentPresence(day: Option<string>, block: Option<string>, present: Option<Json>)
      modifies this`blockResidentPresence
      ensures blockResidentPresence ==
        Write(old(blockResidentPresence), BlockKey(day, block), PresenceValue(present))
    {
      var key := BlockKey(day, block);
      if key.None? {
        return;
      }
      if present.None? || present.value.JNull? {
        blockResidentPresence := blockResidentPresence - {key.value};
      } else {
        blockResidentPresence := blockResidentPresence[key.value := Truthy(present)];
      }
    }

    function GetBlockResidentPresence(day: Option<string>, block: Option<string>): (r: Option<bool>)
      reads this
      ensures r.Some? ==>
        Given(day) && Given(block) &&
        BlockKey(day, block).value in blockResidentPresence && blockResidentPresence[BlockKey(day, block).value] == r.value
      ensures BlockKey(day, block).Some? && BlockKey(day, block).value in blockResidentPresence ==> r.Some?
    {
      Read(blockResidentPresence, BlockKey(day, block))
    }
  }

  /** What setBlockResidentPresence stores: nothing for null or undefined, else a boolean. */
  function PresenceValue(present: Option<Json>): (v: Option<bool>)
    ensures v.None? <==> present.None? || present.value.JNull?
    ensures v.Some? ==> v.value == Truthy(present)
  {
    if present.None? || present.value.JNull? then None else Some(Truthy(present))
  }

  /**
   * After a clinic selection is set for a day and block, reading it back
   * gives the value, a null clears it, and every other block of days and
   * blocks without '|' reads as before.
   */
  lemma ClinicSelectionRoundTrip(m: map<string, string>, day: Option<string>, block: Option<string>,
                                 v: Option<string>, day2: Option<string>, block2: Option<string>)
    requires Given(day) && Given(block) && Given(day2) && Given(block2)
    requires '|' !in day.value && '|' !in block.value && '|' !in day2.value && '|' !in block2.value
    ensures Read(Write(m, BlockKey(day, block), v), BlockKey(day, block)) == v
    ensures (day2, block2) != (day, block) ==>
      Read(Write(m, BlockKey(day, block), v), BlockKey(day2, block2)) == Read(m, BlockKey(day2, block2))
  {
    BlockKeyInjective(day, block, day2, block2);
    ReadAfterWrite(m, BlockKey(day, block), v, BlockKey(day2, block2));
  }

  /**
   * Resident presence always reads back as a boolean: the truthiness of
   * what was set, and other slots read as before.
   */
  lemma ResidentPresenceRoundTrip(m: map<string, bool>, day: Option<string>, block: Option<string>, slot: int,
                                  present: Option<Json>, slot2: int)
    requires Given(day) && Given(block)
    requires '|' !in day.value && '|' !in block.value
    ensures Read(Write(m, ResidentKey(day, block, Some(slot)), Some(Truthy(present))), ResidentKey(day, block, Some(slot))) ==
      Some(Truthy(present))
    ensures slot2 != slot ==>
      Read(Write(m, ResidentKey(day, block, Some(slot)), Some(Truthy(present))), ResidentKey(day, block, Some(slot2))) ==
      Read(m, ResidentKey(day, block, Some(slot2)))
  {
    ResidentKeyInjective(day, block, slot, day, block, slot2);
    ReadAfterWrite(m, ResidentKey(day, block, Some(slot)), Some(Truthy(present)), ResidentKey(day, block, Some(slot2)));
  }

  /** A block's presence reads back as the boolean set, or as nothing after a null. */
  lemma BlockPresenceRoundTrip(m: map<string, bool>, day: Option<string>, block: Option<string>, present: Option<Json>)
    requires Given(day) && Given(block)
    ensures present.None? || present.value.JNull? ==>
      Read(Write(m, BlockKey(day, block), PresenceValue(present)), BlockKey(day, block)).None?
    ensures present.Some? && !present.value.JNull? ==>
      Read(Write(m, BlockKey(day, block), PresenceValue(present)), BlockKey(day, block)) == Some(Truthy(present))
  {
    ReadAfterWrite(m, BlockKey(day, block), PresenceValue(present), None);
  }
}
