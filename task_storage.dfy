/**
 * Reading the stored task list: the stored string is parsed as JSON, a list
 * of candidate entries is dug out of whatever shape was stored (an array, an
 * object keyed by indexes, a wrapper object under one of the collection
 * keys, or a string holding JSON again, up to depth 4), and the object
 * entries are kept while the others are counted as discarded.
 *
 * JSON.parse is a parameter: `parse(s)` is None when it throws.
 */
module TaskStorage {
  import opened Common
  import opened StableSort

  /** isObject: truthy and of type "object" — an array or an object (null is falsy). */
  predicate IsObject(v: Json)
  {
    v.JArr? || v.JObj?
  }

  // ---------------------------------------------------------------- toArrayFromNumericObject

  /** `/^\d+$/`: one or more decimal digits. */
  predicate IsIndexKey(k: string)
  {
    |k| > 0 && AllDigits(k)
  }

  /** The numeric value of a field's key, Number(key), for an index key. */
  function KeyNumber(f: (string, Json)): nat
  {
    if AllDigits(f.0) then ParseDigits(f.0) else 0
  }

  /** The descending sort key that orders fields by ascending numeric key. */
  function IndexOrder(f: (string, Json)): int
  {
    0 - KeyNumber(f)
  }

  function Values(fields: seq<(string, Json)>): (vs: seq<Json>)
    ensures |vs| == |fields|
    ensures forall i :: 0 <= i < |fields| ==> vs[i] == fields[i].1
  {
    seq(|fields|, i requires 0 <= i < |fields| => fields[i].1)
  }

  /**
   * toArrayFromNumericObject: the values of an object whose keys are all
   * indexes, in ascending numeric key order; None for anything else and for
   * an object without keys. An array's keys are its indexes, so a non-empty
   * array gives its own items.
   */
  function ToArrayFromNumericObject(candidate: Json): Option<seq<Json>>
  {
    match candidate
    case JArr(items) => if items == [] then None else Some(items)
    case JObj(fields) =>
      if fields == [] then None
      else if exists i | 0 <= i < |fields| :: !IsIndexKey(fields[i].0) then None
      else Some(Values(SortDesc(fields, IndexOrder)))
    case _ => None
  }

  /**
   * An object keyed by indexes gives one value per key, ordered by the
   * numeric value of the key, and holds exactly the object's values; keys
   * with the same numeric value keep their order.
   */
  lemma NumericObjectOrdered(fields: seq<(string, Json)>)
    requires fields != [] && forall i :: 0 <= i < |fields| ==> IsIndexKey(fields[i].0)
    ensures ToArrayFromNumericObject(JObj(fields)).Some?
    ensures var sorted := SortDesc(fields, IndexOrder);
      ToArrayFromNumericObject(JObj(fields)).value == Values(sorted) &&
      multiset(sorted) == multiset(fields) &&
      (forall i, j :: 0 <= i < j < |sorted| ==> KeyNumber(sorted[i]) <= KeyNumber(sorted[j]))
  {
    var sorted := SortDesc(fields, IndexOrder);
    SortDescCorrect(fields, IndexOrder);
    forall i, j | 0 <= i < j < |sorted| ensures KeyNumber(sorted[i]) <= KeyNumber(sorted[j]) {
      assert IndexOrder(sorted[i]) >= IndexOrder(sorted[j]);
    }
  }

  /** A key that is not an index, or no key at all, gives no list. */
  lemma NumericObjectRejects(fields: seq<(string, Json)>, i: nat)
    requires i < |fields| && !IsIndexKey(fields[i].0)
    ensures ToArrayFromNumericObject(JObj(fields)) == None
    ensures ToArrayFromNumericObject(JObj([])) == None
  {
  }

  // ---------------------------------------------------------------- extractCandidateList

  /** The wrapper keys tried, in this order. */
  const CollectionKeys: seq<string> :=
    ["tasks", "items", "entries", "list", "value", "data", "payload", "taskList", "taskEntries"]

  /** The position of the first field named `key`, if any. */
  function FieldIndex(fields: seq<(string, Json)>, key: string): (r: Option<nat>)
    ensures r.Some? ==> r.value < |fields| && fields[r.value].0 == key
    ensures r.None? <==> forall i :: 0 <= i < |fields| ==> fields[i].0 != key
    decreases |fields|
  {
    if fields == [] then None
    else if fields[0].0 == key then Some(0)
    else
      var r := FieldIndex(fields[1..], key);
      if r.Some? then Some(r.value + 1) else None
  }

  /** The measure that bounds re-parsing: strings are re-parsed only up to depth 4. */
  function Budget(depth: int): nat
  {
    if depth < 5 then 5 - depth else 0
  }

  /** extractCandidateList(candidate, depth). */
  function Extract(parse: string -> Option<Json>, candidate: Json, depth: int): Option<seq<Json>>
    decreases Budget(depth), candidate, 1, 0
  {
    match candidate
    case JArr(items) => Some(items)
    case JStr(s) =>
      if IsBlank(s) || depth > 4 then None
      else if parse(s).None? then None
      else Extract(parse, parse(s).value, depth + 1)
    case JObj(fields) =>
      var numeric := ToArrayFromNumericObject(candidate);
      if numeric.Some? then numeric
      else FromKeys(parse, candidate, depth, 0)
    case _ => None
  }

  /** The collection-key loop, from key `k` on: the first key present whose value yields a list wins. */
  function FromKeys(parse: string -> Option<Json>, obj: Json, depth: int, k: nat): Option<seq<Json>>
    requires obj.JObj?
    decreases Budget(depth), obj, 0, |CollectionKeys| - k
  {
    if k >= |CollectionKeys| then None
    else
      var at := FieldIndex(obj.fields, CollectionKeys[k]);
      if at.None? then FromKeys(parse, obj, depth, k + 1)
      else
        assert obj.fields[at.value] in obj.fields;
        var list := Extract(parse, obj.fields[at.value].1, depth + 1);
        if list.Some? then list else FromKeys(parse, obj, depth, k + 1)
  }

  /** The value under the `k`-th collection key, as the loop reads it. */
  function KeyValue(obj: Json, k: nat): Option<Json>
    requires obj.JObj? && k < |CollectionKeys|
  {
    var at := FieldIndex(obj.fields, CollectionKeys[k]);
    if at.None? then None else Some(obj.fields[at.value].1)
  }

  /** The `j`-th collection key is present and its value yields a list. */
  predicate Yields(parse: string -> Option<Json>, obj: Json, depth: int, j: nat)
    requires obj.JObj? && j < |CollectionKeys|
  {
    KeyValue(obj, j).Some? && Extract(parse, KeyValue(obj, j).value, depth + 1).Some?
  }

  /** The loop returns the list of the first key, from `k` on, that yields one. */
  lemma {:induction false} FromKeysPicksFirst(parse: string -> Option<Json>, obj: Json, depth: int, k: nat, j: nat)
    requires obj.JObj? && k <= j < |CollectionKeys|
    requires Yields(parse, obj, depth, j)
    requires forall i :: k <= i < j ==> !Yields(parse, obj, depth, i)
    ensures FromKeys(parse, obj, depth, k) == Extract(parse, KeyValue(obj, j).value, depth + 1)
    decreases j - k
  {
    if k < j {
      assert !Yields(parse, obj, depth, k);
      FromKeysPicksFirst(parse, obj, depth, k + 1, j);
    }
  }

  /** When no key from `k` on yields a list, the loop finds none. */
  lemma {:induction false} FromKeysNone(parse: string -> Option<Json>, obj: Json, depth: int, k: nat)
    requires obj.JObj?
    requires forall i :: k <= i < |CollectionKeys| ==> !Yields(parse, obj, depth, i)
    ensures FromKeys(parse, obj, depth, k) == None
    decreases |CollectionKeys| - k
  {
    if k < |CollectionKeys| {
      assert !Yields(parse, obj, depth, k);
      FromKeysNone(parse, obj, depth, k + 1);
    }
  }

  /**
   * Past depth 4 no string is parsed again: the result does not depend on
   * what JSON.parse would do.
   */
  lemma {:induction false} NoParseBeyondDepth(p1: string -> Option<Json>, p2: string -> Option<Json>, candidate: Json, depth: int)
    requires depth > 4
    ensures Extract(p1, candidate, depth) == Extract(p2, candidate, depth)
    decreases candidate, 1, 0
  {
    if candidate.JObj? && ToArrayFromNumericObject(candidate).None? {
      FromKeysSameParse(p1, p2, candidate, depth, 0);
    }
  }

  lemma {:induction false} FromKeysSameParse(p1: string -> Option<Json>, p2: string -> Option<Json>, obj: Json, depth: int, k: nat)
    requires depth > 4 && obj.JObj?
    ensures FromKeys(p1, obj, depth, k) == FromKeys(p2, obj, depth, k)
    decreases obj, 0, |CollectionKeys| - k
  {
    if k < |CollectionKeys| {
      var at := FieldIndex(obj.fields, CollectionKeys[k]);
      if at.Some? {
        assert obj.fields[at.value] in obj.fields;
        NoParseBeyondDepth(p1, p2, obj.fields[at.value].1, depth + 1);
      }
      FromKeysSameParse(p1, p2, obj, depth, k + 1);
    }
  }

  /** A top-level array is the list itself; a blank string, null, a boolean or a number gives none. */
  lemma ExtractBaseCases(parse: string -> Option<Json>, candidate: Json, depth: int)
    ensures candidate.JArr? ==> Extract(parse, candidate, depth) == Some(candidate.items)
    ensures candidate.JStr? && IsBlank(candidate.s) ==> Extract(parse, candidate, depth) == None
    ensures candidate.JNull? || candidate.JBool? || candidate.JNum? ==> Extract(parse, candidate, depth) == None
  {
  }

  // ---------------------------------------------------------------- parseStoredTasks

  /** The entries kept as tasks: the objects that are neither null nor arrays, in order. */
  function Kept(list: seq<Json>): seq<Json>
  {
    if list == [] then []
    else
      var n := |list| - 1;
      Kept(list[..n]) + (if list[n].JObj? then [list[n]] else [])
  }

  /** How many entries are discarded: every entry that is not an object. */
  function DiscardCount(list: seq<Json>): nat
  {
    if list == [] then 0
    else
      var n := |list| - 1;
      DiscardCount(list[..n]) + (if list[n].JObj? then 0 else 1)
  }

  /** What parseStoredTasks returns: the tasks, how many entries were dropped, and whether parsing threw. */
  datatype StorageResult = StorageResult(tasks: seq<Json>, discarded: nat, failed: bool)

  const EmptyResult := StorageResult([], 0, false)

  /** parseStoredTasks; `serialized` is None when it is not a string. */
  function StoredTasks(serialized: Option<string>, parse: string -> Option<Json>): StorageResult
  {
    if serialized.None? || IsBlank(serialized.value) then EmptyResult
    else if parse(serialized.value).None? then EmptyResult.(failed := true)
    else
      var list := Extract(parse, parse(serialized.value).value, 0);
      if list.None? then EmptyResult
      else StorageResult(Kept(list.value), DiscardCount(list.value), false)
  }

  /** The forEach over the candidate list. */
  method SortEntries(list: seq<Json>) returns (tasks: seq<Json>, discarded: nat)
    ensures tasks == Kept(list) && discarded == DiscardCount(list)
  {
    tasks := [];
    discarded := 0;
    var i := 0;
    while i < |list|
      invariant 0 <= i <= |list|
      invariant tasks == Kept(list[..i]) && discarded == DiscardCount(list[..i])
    {
      var entry := list[i];
      assert list[..i + 1][..i] == list[..i];
      if entry.JObj? {
        tasks := tasks + [entry];
      } else if !entry.JNull? {
        discarded := discarded + 1;
      } else {
        discarded := discarded + 1;
      }
      i := i + 1;
    }
    assert list[..i] == list;
  }

  method ParseStoredTasks(serialized: Option<string>, parse: string -> Option<Json>) returns (r: StorageResult)
    ensures r == StoredTasks(serialized, parse)
  {
    if serialized.None? || IsBlank(serialized.value) {
      return EmptyResult;
    }
    var parsed := parse(serialized.value);
    if parsed.None? {
      return EmptyResult.(failed := true);
    }
    var candidateList := Extract(parse, parsed.value, 0);
    if candidateList.None? {
      return EmptyResult;
    }
    var tasks, discarded := SortEntries(candidateList.value);
    r := StorageResult(tasks, discarded, false);
  }

  /** Every entry is either kept or discarded: the two counts add up to the list's length. */
  lemma {:induction false} KeptPlusDiscarded(list: seq<Json>)
    ensures |Kept(list)| + DiscardCount(list) == |list|
    decreases |list|
  {
    if list != [] {
      KeptPlusDiscarded(list[..|list| - 1]);
    }
  }

  /** The kept entries are exactly the object entries. */
  lemma {:induction false} KeptAreObjects(list: seq<Json>)
    ensures forall x :: x in Kept(list) <==> x in list && x.JObj?
    decreases |list|
  {
    if list != [] {
      var n := |list| - 1;
      KeptAreObjects(list[..n]);
      assert list == list[..n] + [list[n]];
    }
  }

  /** Keeping is done entry by entry, so the kept entries stay in their original order. */
  lemma {:induction false} KeptAppend(a: seq<Json>, b: seq<Json>)
    ensures Kept(a + b) == Kept(a) + Kept(b)
    decreases |b|
  {
    if b != [] {
      var n := |b| - 1;
      KeptAppend(a, b[..n]);
      assert (a + b)[..|a + b| - 1] == a + b[..n];
      assert (a + b)[|a + b| - 1] == b[n];
    } else {
      assert a + b == a;
    }
  }

  /**
   * Whenever a list is found, the tasks and the discarded entries account
   * for every entry of it, and the tasks are its object entries; without a
   * list, or without a usable string, the result is empty.
   */
  lemma StoredTasksAccount(serialized: Option<string>, parse: string -> Option<Json>)
    ensures serialized.None? || IsBlank(serialized.value) ==> StoredTasks(serialized, parse) == StorageResult([], 0, false)
    ensures serialized.Some? && !IsBlank(serialized.value) && parse(serialized.value).None? ==>
      StoredTasks(serialized, parse) == StorageResult([], 0, true)
    ensures serialized.Some? && !IsBlank(serialized.value) && parse(serialized.value).Some? ==>
      var list := Extract(parse, parse(serialized.value).value, 0);
      var r := StoredTasks(serialized, parse);
      !r.failed &&
      (list.None? ==> r == StorageResult([], 0, false)) &&
      (list.Some? ==> |r.tasks| + r.discarded == |list.value| &&
                      forall x :: x in r.tasks <==> x in list.value && x.JObj?)
  {
    if serialized.Some? && !IsBlank(serialized.value) && parse(serialized.value).Some? {
      var list := Extract(parse, parse(serialized.value).value, 0);
      if list.Some? {
        KeptPlusDiscarded(list.value);
        KeptAreObjects(list.value);
      }
    }
  }

  /**
   * `trim` removes every Unicode space separator, the byte-order mark and the
   * line and paragraph separators, so a stored string of those reads as empty.
   */
  lemma UnicodeBlankIsEmpty(parse: string -> Option<Json>)
    ensures StoredTasks(Some("\U{00A0}\U{2003}\U{FEFF}\U{2028}\U{3000}"), parse) == StorageResult([], 0, false)
  {
    StoredTasksAccount(Some("\U{00A0}\U{2003}\U{FEFF}\U{2028}\U{3000}"), parse);
  }
}
