/** MongoRoutedQueueStatistic: named counters held as AtomicLongs, reported as decimal text,
    with "-1" for a counter that was never incremented. */
module Stats {
  import opened Results
  import opened JavaInts

  /** The value reported for a key nobody incremented. */
  const UNSET_VALUE: int := -1

  class RoutedQueueStatistic {
    var values: map<string, int>

    /** Every counter is a Java long. */
    ghost predicate Valid()
      reads this
    {
      forall k :: k in values ==> IsLong(values[k])
    }

    constructor ()
      ensures values == map[]
      ensures Valid()
    {
      values := map[];
    }

    /** increment(key): a missing counter is created at 0; then it is incremented. */
    method Increment(key: string)
      requires Valid()
      modifies this
      ensures Valid()
      ensures key in values
      ensures key !in old(values) ==> values[key] == 1
      ensures key in old(values) && old(values)[key] < LONG_MAX ==> values[key] == old(values)[key] + 1
      ensures key in old(values) && old(values)[key] == LONG_MAX ==> values[key] == LONG_MIN
      ensures forall k :: k != key ==> (k in values <==> k in old(values))
      ensures forall k :: k != key && k in values ==> values[k] == old(values)[k]
      ensures key !in old(values) ==> GetValue(key) == "1"
      ensures key in old(values) && old(values)[key] < LONG_MAX ==>
        ParseLong(GetValue(key)) == Some(ParseLong(old(GetValue(key))).value + 1)
      ensures key in old(values) && old(values)[key] == LONG_MAX ==> ParseLong(GetValue(key)) == Some(LONG_MIN)
    {
      var counter := if key in values then values[key] else 0;
      values := values[key := IncLong(counter)];
      if counter == 0 && key !in old(values) {
        FirstIncrementReportsOne(this, key);
      }
    }

    /** getValue(key): the counter's decimal text, "-1" when the key is unknown. */
    function GetValue(key: string): (s: string)
      reads this
      requires Valid()
      ensures key !in values ==> s == "-1"
      ensures ParseLong(s) == Some(if key in values then values[key] else UNSET_VALUE)
    {
      var v := if key in values then values[key] else UNSET_VALUE;
      ParseLongShow(v);
      Show(v)
    }
  }

  /** A counter just created by its first increment reports "1". */
  lemma FirstIncrementReportsOne(s: RoutedQueueStatistic, key: string)
    requires s.Valid() && key in s.values && s.values[key] == 1
    ensures s.GetValue(key) == "1"
  {
    assert Digits(1) == [DigitChar(1)];
    assert DigitChar(1) == '1';
  }
}
