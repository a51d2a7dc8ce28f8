/** MongoQueueCoreIndexes: the index keys the queue's queries need, the validation of the
    caller's index directions, and the bounded create-and-check loop that makes sure an
    index is there. */
module IndexManager {
  import opened Results
  import opened Bson
  import opened Store

  const INDEX_CREATION_ATTEMPTS: nat := 5
  const DIRECTION_MESSAGE: string := "field values must be either 1 or -1"
  const ATTEMPTS_MESSAGE: string := "could not create index after 5 attempts"

  /** Objects.equals(value, 1) or Objects.equals(value, -1): the boxed Integer 1 or -1; a
      Long 1L is not equal to either. */
  predicate IsDirection(v: Value) {
    v == Int(1) || v == Int(-1)
  }

  predicate AllDirections(fields: Document) {
    forall i :: 0 <= i < |fields| ==> IsDirection(fields[i].1)
  }

  /** A direction given as a Long, even 1L or -1L, is refused. */
  lemma LongDirectionRefused(fields: Document, i: nat)
    requires i < |fields| && fields[i].1.Long?
    ensures !AllDirections(fields)
  {
    assert !IsDirection(fields[i].1);
  }

  /** No field name occurs in both documents. */
  predicate Disjoint(a: Document, b: Document) {
    forall i, j :: 0 <= i < |a| && 0 <= j < |b| ==> a[i].0 != b[j].0
  }

  /** The key of the index for get(): the equality field, the caller's fields before the
      sort, the sort fields, the caller's fields after the sort, and the range field, all
      appended with Document's put semantics. */
  function GetIndexKey(before: Document, after: Document): Document {
    var withBefore := PutAll([("running", Int(1))], PayloadPaths(before));
    var withSort := Put(Put(withBefore, "priority", Int(1)), "created", Int(1));
    Put(PutAll(withSort, PayloadPaths(after)), "earliestGet", Int(1))
  }

  /** The key of the index for the abandoned-lease reset in get(). */
  const RESET_INDEX_KEY: Document := [("running", Int(1)), ("resetTimestamp", Int(1))]

  /** The key of the index for count(), with or without the running flag. */
  function CountIndexKey(index: Document, includeRunning: bool): Document {
    PutAll(if includeRunning then [("running", Int(1))] else [], PayloadPaths(index))
  }

  /** Appending payload names to a document whose names are none of them. */
  lemma AppendPayloadPathsWf(a: Document, q: Document)
    requires Wf(a) && Wf(q)
    requires forall i, j :: 0 <= i < |a| && 0 <= j < |q| ==> a[i].0 != PayloadPath(q[j].0)
    ensures Wf(a + PayloadPaths(q))
  {
    var ps := PayloadPaths(q);
    var d := a + ps;
    forall i, j | 0 <= i < j < |d| ensures d[i].0 != d[j].0 {
      if j >= |a| {
        assert d[j] == ps[j - |a|];
        if i >= |a| {
          assert d[i] == ps[i - |a|];
          PayloadPathInjective(q[i - |a|].0, q[j - |a|].0);
        }
      }
    }
  }

  lemma FixedNamesNotPayload()
    ensures !IsPayloadPath("running") && !IsPayloadPath("created")
    ensures !IsPayloadPath("priority") && !IsPayloadPath("earliestGet")
  {
    assert "priority"[..8] == "priority";
    assert "earliestGet"[..8] == "earliest";
  }

  /** Putting a name the document does not have appends it. */
  lemma PutFresh(d: Document, k: string, v: Value)
    requires forall i :: 0 <= i < |d| ==> d[i].0 != k
    ensures Put(d, k, v) == d + [(k, v)]
  {
    GetNone(d, k);
  }

  const RUNNING_ENTRY: Document := [("running", Int(1))]
  const SORT_ENTRIES: Document := [("priority", Int(1)), ("created", Int(1))]

  lemma WithBeforeLayout(before: Document)
    requires Wf(before)
    ensures PutAll(RUNNING_ENTRY, PayloadPaths(before)) == RUNNING_ENTRY + PayloadPaths(before)
  {
    FixedNamesNotPayload();
    PayloadPathsWf(RUNNING_ENTRY, before);
    PutAllFresh(RUNNING_ENTRY, PayloadPaths(before));
  }

  /** Putting two new, distinct names appends them in order. */
  lemma PutTwoFresh(w: Document, k1: string, v1: Value, k2: string, v2: Value)
    requires k1 != k2
    requires forall i :: 0 <= i < |w| ==> w[i].0 != k1 && w[i].0 != k2
    ensures Put(Put(w, k1, v1), k2, v2) == w + [(k1, v1), (k2, v2)]
  {
    PutFresh(w, k1, v1);
    var w1 := w + [(k1, v1)];
    forall i | 0 <= i < |w1| ensures w1[i].0 != k2 {
      if i < |w| {
        assert w1[i] == w[i];
      }
    }
    PutFresh(w1, k2, v2);
    assert w1 + [(k2, v2)] == w + [(k1, v1), (k2, v2)];
  }

  /** Putting the two sort fields on a document that has neither appends them in order. */
  lemma PutSortFresh(w: Document)
    requires forall i :: 0 <= i < |w| ==> w[i].0 != "priority" && w[i].0 != "created"
    ensures Put(Put(w, "priority", Int(1)), "created", Int(1)) == w + SORT_ENTRIES
  {
    assert |"created"| == 7;
    PutTwoFresh(w, "priority", Int(1), "created", Int(1));
  }

  /** The running flag and payload names are neither of the sort fields. */
  lemma RunningPathsAvoidSort(before: Document)
    ensures var w := RUNNING_ENTRY + PayloadPaths(before);
      forall i :: 0 <= i < |w| ==> w[i].0 != "priority" && w[i].0 != "created"
  {
    FixedNamesNotPayload();
    var ps := PayloadPaths(before);
    var w := RUNNING_ENTRY + ps;
    forall i | 0 <= i < |w| ensures w[i].0 != "priority" && w[i].0 != "created" {
      if i > 0 {
        assert w[i] == ps[i - 1];
      }
    }
  }

  /** The get-index key before the caller's after-sort fields, for well formed fields. */
  lemma WithSortLayout(before: Document)
    requires Wf(before)
    ensures PutAll(RUNNING_ENTRY, PayloadPaths(before)) == RUNNING_ENTRY + PayloadPaths(before)
    ensures Put(Put(RUNNING_ENTRY + PayloadPaths(before), "priority", Int(1)), "created", Int(1))
         == RUNNING_ENTRY + PayloadPaths(before) + SORT_ENTRIES
  {
    WithBeforeLayout(before);
    RunningPathsAvoidSort(before);
    PutSortFresh(RUNNING_ENTRY + PayloadPaths(before));
  }

  /** The get-index key, once the before-sort part is known to be plain concatenation. */
  lemma GetIndexKeyUnfold(before: Document, after: Document)
    requires Wf(before)
    ensures GetIndexKey(before, after) ==
      Put(PutAll(RUNNING_ENTRY + PayloadPaths(before) + SORT_ENTRIES, PayloadPaths(after)), "earliestGet", Int(1))
  {
    WithSortLayout(before);
  }

  lemma SortPrefixWf(before: Document)
    requires Wf(before)
    ensures Wf(RUNNING_ENTRY + PayloadPaths(before) + SORT_ENTRIES)
  {
    FixedNamesNotPayload();
    var pb := PayloadPaths(before);
    var a1 := RUNNING_ENTRY + pb + SORT_ENTRIES;
    forall i, j | 0 <= i < j < |a1| ensures a1[i].0 != a1[j].0 {
      if 0 < i && j <= |pb| {
        assert a1[i] == pb[i - 1] && a1[j] == pb[j - 1];
        PayloadPathInjective(before[i - 1].0, before[j - 1].0);
      } else if 0 < i <= |pb| {
        assert a1[i] == pb[i - 1];
      } else if 0 < j <= |pb| {
        assert a1[j] == pb[j - 1];
      }
    }
  }

  lemma SortPrefixAvoids(before: Document, after: Document)
    requires Disjoint(before, after)
    ensures var a1 := RUNNING_ENTRY + PayloadPaths(before) + SORT_ENTRIES;
      forall i, j :: 0 <= i < |a1| && 0 <= j < |after| ==> a1[i].0 != PayloadPath(after[j].0)
  {
    FixedNamesNotPayload();
    var pb := PayloadPaths(before);
    var a1 := RUNNING_ENTRY + pb + SORT_ENTRIES;
    forall i, j | 0 <= i < |a1| && 0 <= j < |after| ensures a1[i].0 != PayloadPath(after[j].0) {
      if 0 < i <= |pb| {
        assert a1[i] == pb[i - 1];
        PayloadPathInjective(before[i - 1].0, after[j].0);
      }
    }
  }

  lemma SortPrefixNoEarliest(before: Document, after: Document)
    ensures var w := RUNNING_ENTRY + PayloadPaths(before) + SORT_ENTRIES + PayloadPaths(after);
      forall i :: 0 <= i < |w| ==> w[i].0 != "earliestGet"
  {
    FixedNamesNotPayload();
    var pb := PayloadPaths(before);
    var pa := PayloadPaths(after);
    var a1 := RUNNING_ENTRY + pb + SORT_ENTRIES;
    var w := a1 + pa;
    forall i | 0 <= i < |w| ensures w[i].0 != "earliestGet" {
      if i >= |a1| {
        assert w[i] == pa[i - |a1|];
      } else if 0 < i <= |pb| {
        assert w[i] == pb[i - 1];
      }
    }
  }

  /** With well formed, disjoint before- and after-sort fields, the get-index key lists its
      fields in exactly the documented order. */
  lemma GetIndexKeyLayout(before: Document, after: Document)
    requires Wf(before) && Wf(after) && Disjoint(before, after)
    ensures GetIndexKey(before, after) ==
      RUNNING_ENTRY + PayloadPaths(before) + SORT_ENTRIES + PayloadPaths(after) + [("earliestGet", Int(1))]
  {
    GetIndexKeyUnfold(before, after);
    var a1 := RUNNING_ENTRY + PayloadPaths(before) + SORT_ENTRIES;
    SortPrefixWf(before);
    SortPrefixAvoids(before, after);
    AppendPayloadPathsWf(a1, after);
    PutAllFresh(a1, PayloadPaths(after));
    SortPrefixNoEarliest(before, after);
    PutFresh(a1 + PayloadPaths(after), "earliestGet", Int(1));
  }

  lemma GetIndexKeyWf(before: Document, after: Document)
    requires Wf(before)
    ensures Wf(GetIndexKey(before, after))
  {
    GetIndexKeyUnfold(before, after);
    SortPrefixWf(before);
    var a1 := RUNNING_ENTRY + PayloadPaths(before) + SORT_ENTRIES;
    PutAllWf(a1, PayloadPaths(after));
    PutWf(PutAll(a1, PayloadPaths(after)), "earliestGet", Int(1));
  }

  lemma AppendsKeepNames(a1: Document, pa: Document, p: nat)
    requires p < |a1|
    ensures |Put(PutAll(a1, pa), "earliestGet", Int(1))| > p
    ensures Put(PutAll(a1, pa), "earliestGet", Int(1))[p].0 == a1[p].0
  {
    var x := PutAll(a1, pa);
    PutAllKeepsNames(a1, pa);
    PutKeepsNames(x, "earliestGet", Int(1));
  }

  lemma SortPrefixAt(before: Document, i: nat)
    requires i < |before|
    ensures |RUNNING_ENTRY + PayloadPaths(before) + SORT_ENTRIES| > 1 + i
    ensures (RUNNING_ENTRY + PayloadPaths(before) + SORT_ENTRIES)[1 + i].0 == PayloadPath(before[i].0)
  {
    ConcatAt(RUNNING_ENTRY, PayloadPaths(before), SORT_ENTRIES, i);
  }

  lemma ConcatAt(a: Document, b: Document, c: Document, i: nat)
    requires i < |b|
    ensures |a + b + c| > |a| + i && (a + b + c)[|a| + i] == b[i]
  {
  }

  /** Every before-sort field keeps its slot, right after running:1. */
  lemma GetIndexKeyNames(before: Document, after: Document, i: nat)
    requires Wf(before) && i < |before|
    ensures |GetIndexKey(before, after)| > 1 + i
    ensures GetIndexKey(before, after)[1 + i].0 == PayloadPath(before[i].0)
  {
    SortPrefixAt(before, i);
    GetIndexKeyUnfold(before, after);
    AppendsKeepNames(RUNNING_ENTRY + PayloadPaths(before) + SORT_ENTRIES, PayloadPaths(after), 1 + i);
  }

  /** A name given after the sort ends up holding the after-sort value. */
  lemma GetIndexKeyAfterValue(before: Document, after: Document, k: string)
    requires Wf(before) && Wf(after) && Get(after, k).Some?
    ensures Get(GetIndexKey(before, after), PayloadPath(k)) == Get(after, k)
  {
    GetIndexKeyUnfold(before, after);
    FixedNamesNotPayload();
    var a1 := RUNNING_ENTRY + PayloadPaths(before) + SORT_ENTRIES;
    var pa := PayloadPaths(after);
    PayloadPathsWf([], after);
    assert [] + pa == pa;
    GetFound(after, k);
    var j :| 0 <= j < |after| && after[j] == (k, Get(after, k).value);
    GetAt(pa, j);
    GetPutAll(a1, pa, PayloadPath(k));
  }

  /** A payload name given both before and after the sort keeps its place among the
      before-sort fields and takes the after-sort direction: append overwrites in place. */
  lemma GetIndexKeyOverlap(before: Document, after: Document, i: nat)
    requires Wf(before) && Wf(after)
    requires i < |before| && Get(after, before[i].0).Some?
    ensures |GetIndexKey(before, after)| > 1 + i
    ensures GetIndexKey(before, after)[1 + i] ==
      (PayloadPath(before[i].0), Get(after, before[i].0).value)
  {
    var key := GetIndexKey(before, after);
    GetIndexKeyNames(before, after, i);
    GetIndexKeyAfterValue(before, after, before[i].0);
    GetIndexKeyWf(before, after);
    GetAt(key, 1 + i);
  }

  /** The count-index key starts with running:1 exactly when running was asked for, and the
      payload fields follow in order. */
  lemma CountIndexKeyLayout(index: Document, includeRunning: bool)
    requires Wf(index)
    ensures CountIndexKey(index, includeRunning) ==
      (if includeRunning then [("running", Int(1))] else []) + PayloadPaths(index)
    ensures var key := CountIndexKey(index, includeRunning);
      (|key| > 0 && key[0] == ("running", Int(1))) <==> includeRunning
  {
    var base: Document := if includeRunning then [("running", Int(1))] else [];
    assert !IsPayloadPath("running");
    PayloadPathsWf(base, index);
    PutAllFresh(base, PayloadPaths(index));
    if !includeRunning && |index| > 0 {
      assert base + PayloadPaths(index) == PayloadPaths(index);
      assert IsPayloadPath(PayloadPaths(index)[0].0);
    }
  }

  /** One more caller field appended under its payload name. */
  lemma AppendOnePayloadPath(base: Document, q: Document, e: Entry)
    ensures PutAll(base, PayloadPaths(q + [e])) == Put(PutAll(base, PayloadPaths(q)), PayloadPath(e.0), e.1)
  {
    var q' := q + [e];
    assert q'[..|q'| - 1] == q;
    var ps := PayloadPaths(q');
    assert ps[..|ps| - 1] == PayloadPaths(q);
  }

  /** The loops of ensureGetIndex and ensureCountIndex: each caller field is checked to be a
      direction and appended under its payload name. */
  method AppendIndexFields(base: Document, fields: Document) returns (r: Result<Document>)
    ensures r.Ok? <==> AllDirections(fields)
    ensures r.Ok? ==> r.value == PutAll(base, PayloadPaths(fields))
    ensures r.Err? ==> r.error == IllegalArgument(DIRECTION_MESSAGE)
  {
    var index := base;
    var i := 0;
    while i < |fields|
      invariant 0 <= i <= |fields|
      invariant AllDirections(fields[..i])
      invariant index == PutAll(base, PayloadPaths(fields[..i]))
    {
      if !IsDirection(fields[i].1) {
        return Err(IllegalArgument(DIRECTION_MESSAGE));
      }
      assert fields[..i + 1] == fields[..i] + [fields[i]];
      AppendOnePayloadPath(base, fields[..i], fields[i]);
      index := Put(index, PayloadPath(fields[i].0), fields[i].1);
      i := i + 1;
    }
    assert fields[..i] == fields;
    r := Ok(index);
  }

  /** One listIndexes pass: some existing key equals the requested one (Document.equals). */
  predicate Listed(list: seq<Document>, key: Document) {
    exists j :: 0 <= j < |list| && SameEntries(list[j], key)
  }

  /** What ensureIndex does: its result, the index keys it leaves and how many createIndex
      calls it makes. */
  datatype IndexOutcome = IndexOutcome(result: Result<()>, indexes: seq<Document>, creations: nat)

  /** The retry loop of ensureIndex from attempt `attempt` on; `visible[i]` says whether the
      index created at attempt i is listed from then on. */
  function EnsureIndexOutcome(list: seq<Document>, key: Document, visible: seq<bool>, attempt: nat)
    : IndexOutcome
    requires |visible| == INDEX_CREATION_ATTEMPTS && attempt <= INDEX_CREATION_ATTEMPTS
    decreases INDEX_CREATION_ATTEMPTS - attempt
  {
    if attempt == INDEX_CREATION_ATTEMPTS then IndexOutcome(Err(Runtime(ATTEMPTS_MESSAGE)), list, 0)
    else if Listed(list, key) then IndexOutcome(Ok(()), list, 0)
    else
      var rest := EnsureIndexOutcome(if visible[attempt] then list + [key] else list, key, visible, attempt + 1);
      rest.(creations := rest.creations + 1)
  }

  /** The first attempt at or after `from` whose creation becomes visible, or 5 if none. */
  function FirstVisible(visible: seq<bool>, from: nat): (k: nat)
    requires |visible| == INDEX_CREATION_ATTEMPTS && from <= INDEX_CREATION_ATTEMPTS
    ensures from <= k <= INDEX_CREATION_ATTEMPTS
    ensures k < INDEX_CREATION_ATTEMPTS ==> visible[k]
    ensures forall i :: from <= i < k ==> !visible[i]
    decreases INDEX_CREATION_ATTEMPTS - from
  {
    if from == INDEX_CREATION_ATTEMPTS then from
    else if visible[from] then from
    else FirstVisible(visible, from + 1)
  }

  lemma SameEntriesRefl(d: Document)
    requires Wf(d)
    ensures SameEntries(d, d)
  {
    forall i | 0 <= i < |d| ensures Get(d, d[i].0) == Some(d[i].1) {
      GetAt(d, i);
    }
  }

  lemma {:induction false} EnsureIndexFrom(list: seq<Document>, key: Document, visible: seq<bool>, attempt: nat)
    requires Wf(key) && |visible| == INDEX_CREATION_ATTEMPTS && attempt <= INDEX_CREATION_ATTEMPTS
    requires !Listed(list, key)
    ensures var o := EnsureIndexOutcome(list, key, visible, attempt);
      var k := FirstVisible(visible, attempt);
      && o.creations == (if k < INDEX_CREATION_ATTEMPTS then k + 1 else INDEX_CREATION_ATTEMPTS) - attempt
      && o.indexes == (if k < INDEX_CREATION_ATTEMPTS then list + [key] else list)
      && o.result == (if k + 1 < INDEX_CREATION_ATTEMPTS then Ok(()) else Err(Runtime(ATTEMPTS_MESSAGE)))
    decreases INDEX_CREATION_ATTEMPTS - attempt
  {
    if attempt < INDEX_CREATION_ATTEMPTS {
      var k := FirstVisible(visible, attempt);
      if visible[attempt] {
        assert k == attempt;
        var list' := list + [key];
        ListedAppended(list, key);
        var rest := EnsureIndexOutcome(list', key, visible, attempt + 1);
        assert EnsureIndexOutcome(list, key, visible, attempt) == rest.(creations := rest.creations + 1);
        if attempt + 1 < INDEX_CREATION_ATTEMPTS {
          assert rest == IndexOutcome(Ok(()), list', 0);
        } else {
          assert rest == IndexOutcome(Err(Runtime(ATTEMPTS_MESSAGE)), list', 0);
        }
      } else {
        assert k == FirstVisible(visible, attempt + 1);
        EnsureIndexFrom(list, key, visible, attempt + 1);
        var rest := EnsureIndexOutcome(list, key, visible, attempt + 1);
        assert EnsureIndexOutcome(list, key, visible, attempt) == rest.(creations := rest.creations + 1);
      }
    }
  }

  /** A key just appended to the listing is listed. */
  lemma ListedAppended(list: seq<Document>, key: Document)
    requires Wf(key)
    ensures Listed(list + [key], key)
  {
    SameEntriesRefl(key);
    assert SameEntries((list + [key])[|list|], key);
  }

  /** ensureIndex in closed form: nothing is created when an equal key is listed; otherwise
      it creates until a creation becomes visible, at most five times, succeeds only when a
      further attempt is left to see the new index, and throws after the fifth creation
      without looking again. */
  lemma EnsureIndexClosedForm(list: seq<Document>, key: Document, visible: seq<bool>)
    requires Wf(key) && |visible| == INDEX_CREATION_ATTEMPTS
    ensures var o := EnsureIndexOutcome(list, key, visible, 0);
      if Listed(list, key) then o == IndexOutcome(Ok(()), list, 0)
      else
        var k := FirstVisible(visible, 0);
        && o.creations == (if k < INDEX_CREATION_ATTEMPTS then k + 1 else INDEX_CREATION_ATTEMPTS)
        && o.indexes == (if k < INDEX_CREATION_ATTEMPTS then list + [key] else list)
        && o.result == (if k + 1 < INDEX_CREATION_ATTEMPTS then Ok(()) else Err(Runtime(ATTEMPTS_MESSAGE)))
  {
    if !Listed(list, key) {
      EnsureIndexFrom(list, key, visible, 0);
    }
  }

  /** At most five createIndex calls, and one when the first becomes visible. */
  lemma EnsureIndexCreations(list: seq<Document>, key: Document, visible: seq<bool>)
    requires Wf(key) && |visible| == INDEX_CREATION_ATTEMPTS
    ensures EnsureIndexOutcome(list, key, visible, 0).creations <= INDEX_CREATION_ATTEMPTS
    ensures !Listed(list, key) && visible[0] ==>
      EnsureIndexOutcome(list, key, visible, 0) == IndexOutcome(Ok(()), list + [key], 1)
  {
    EnsureIndexClosedForm(list, key, visible);
  }

  /** A listed key with the same lookups as the requested one, in whatever order, counts
      as the requested index. */
  lemma ListedIgnoresOrder(list: seq<Document>, key: Document, j: nat)
    requires j < |list| && Wf(list[j]) && Wf(key)
    requires forall n :: Get(list[j], n) == Get(key, n)
    ensures Listed(list, key)
  {
    LookupsSameEntries(list[j], key);
  }

  /** Conversely, a key counts as listed only through a listed key with the same lookups. */
  lemma ListedHasSameLookups(list: seq<Document>, key: Document)
    requires forall i :: 0 <= i < |list| ==> Wf(list[i])
    requires Wf(key) && Listed(list, key)
    ensures exists j :: 0 <= j < |list| && forall n :: Get(list[j], n) == Get(key, n)
  {
    var j :| 0 <= j < |list| && SameEntries(list[j], key);
    SameEntriesLookups(list[j], key);
  }

  class MongoQueueCoreIndexes {
    const collection: Collection

    constructor (collection: Collection)
      ensures this.collection == collection
    {
      this.collection := collection;
    }

    /** The scan of listIndexes for a key equal to the requested one. */
    method IsListed(key: Document) returns (found: bool)
      ensures found == Listed(collection.indexes, key)
    {
      var list := collection.indexes;
      var i := 0;
      while i < |list|
        invariant 0 <= i <= |list|
        invariant forall j :: 0 <= j < i ==> !SameEntries(list[j], key)
      {
        if SameEntries(list[i], key) {
          return true;
        }
        i := i + 1;
      }
      return false;
    }

    /** ensureIndex: check, create, and check again, at most five times. */
    method EnsureIndex(key: Document, visible: seq<bool>) returns (r: Result<()>, ghost creations: nat)
      requires |visible| == INDEX_CREATION_ATTEMPTS
      modifies collection
      ensures IndexOutcome(r, collection.indexes, creations)
        == EnsureIndexOutcome(old(collection.indexes), key, visible, 0)
      ensures collection.records == old(collection.records)
    {
      creations := 0;
      var i := 0;
      while i < INDEX_CREATION_ATTEMPTS
        invariant 0 <= i <= INDEX_CREATION_ATTEMPTS
        invariant collection.records == old(collection.records)
        invariant
          var o := EnsureIndexOutcome(collection.indexes, key, visible, i);
          EnsureIndexOutcome(old(collection.indexes), key, visible, 0) == o.(creations := o.creations + creations)
      {
        var listed := IsListed(key);
        if listed {
          return Ok(()), creations;
        }
        collection.CreateIndex(key, visible[i]);
        creations := creations + 1;
        i := i + 1;
      }
      r := Err(Runtime(ATTEMPTS_MESSAGE));
    }

    /** ensureGetIndex(beforeSort, afterSort): null checks, then validation of every field
        before any index is touched, then the get() index and the reset index. */
    method EnsureGetIndex(before: Option<Document>, after: Option<Document>,
                          visibleMain: seq<bool>, visibleReset: seq<bool>)
      returns (r: Result<()>)
      requires |visibleMain| == INDEX_CREATION_ATTEMPTS && |visibleReset| == INDEX_CREATION_ATTEMPTS
      modifies collection
      ensures collection.records == old(collection.records)
      ensures before.None? || after.None? ==>
        r == Err(NullPointer) && collection.indexes == old(collection.indexes)
      ensures before.Some? && after.Some? && !(AllDirections(before.value) && AllDirections(after.value)) ==>
        r == Err(IllegalArgument(DIRECTION_MESSAGE)) && collection.indexes == old(collection.indexes)
      ensures before.Some? && after.Some? && AllDirections(before.value) && AllDirections(after.value) ==>
        var main := EnsureIndexOutcome(old(collection.indexes), GetIndexKey(before.value, after.value), visibleMain, 0);
        if main.result.Err? then r == main.result && collection.indexes == main.indexes
        else
          var reset := EnsureIndexOutcome(main.indexes, RESET_INDEX_KEY, visibleReset, 0);
          r == reset.result && collection.indexes == reset.indexes
    {
      if before.None? || after.None? {
        return Err(NullPointer);
      }
      var withBefore := AppendIndexFields([("running", Int(1))], before.value);
      if withBefore.Err? {
        return Err(withBefore.error);
      }
      var withSort := Put(Put(withBefore.value, "priority", Int(1)), "created", Int(1));
      var complete := AppendIndexFields(withSort, after.value);
      if complete.Err? {
        return Err(complete.error);
      }
      var key := Put(complete.value, "earliestGet", Int(1));
      var main, created := EnsureIndex(key, visibleMain);
      if main.Err? {
        return main;
      }
      r, created := EnsureIndex(RESET_INDEX_KEY, visibleReset);
    }

    /** ensureCountIndex(index, includeRunning). */
    method EnsureCountIndex(index: Option<Document>, includeRunning: bool, visible: seq<bool>)
      returns (r: Result<()>)
      requires |visible| == INDEX_CREATION_ATTEMPTS
      modifies collection
      ensures collection.records == old(collection.records)
      ensures index.None? ==> r == Err(NullPointer) && collection.indexes == old(collection.indexes)
      ensures index.Some? && !AllDirections(index.value) ==>
        r == Err(IllegalArgument(DIRECTION_MESSAGE)) && collection.indexes == old(collection.indexes)
      ensures index.Some? && AllDirections(index.value) ==>
        var o := EnsureIndexOutcome(old(collection.indexes), CountIndexKey(index.value, includeRunning), visible, 0);
        r == o.result && collection.indexes == o.indexes
    {
      if index.None? {
        return Err(NullPointer);
      }
      var base: Document := [];
      if includeRunning {
        base := Put(base, "running", Int(1));
      }
      var complete := AppendIndexFields(base, index.value);
      if complete.Err? {
        return Err(complete.error);
      }
      ghost var created;
      r, created := EnsureIndex(complete.value, visible);
    }
  }
}
