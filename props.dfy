/** PropertiesBox: a java.util.Properties copy with an int lookup that falls back to a
    default. A property value is a String, an integral Number, a finite Double or Float, or
    some other object. */
module Props {
  import opened Results
  import opened JavaInts

  /** A property value: a String; an integral java.lang.Number (Integer, Long, Short, Byte,
      BigInteger) by its exact value; a finite Double or Float by its exact value; or an object
      that is neither a String nor a Number, by what its toString gives. */
  datatype PropValue = Text(s: string) | Number(n: int) | Floating(x: real) | Other(s: string)

  type Properties = map<string, PropValue>

  datatype PropertiesBox = PropertiesBox(entries: Properties)

  /** new PropertiesBox(properties): putAll of every entry of the given properties. */
  function FromProperties(properties: Properties): (box: PropertiesBox)
    ensures forall k :: k in properties ==> k in box.entries && box.entries[k] == properties[k]
    ensures forall k :: k in box.entries ==> k in properties
  {
    PropertiesBox(properties)
  }

  /** tryGetIntProperty(name, default): absent gives the default, a Number its intValue,
      anything else Integer.parseInt of its toString, or the default when that does not
      parse. */
  function TryGetIntProperty(box: PropertiesBox, name: string, defaultValue: int): (r: int)
    ensures name !in box.entries ==> r == defaultValue
    ensures IsInt(defaultValue) ==> IsInt(r)
  {
    if name !in box.entries then defaultValue
    else match box.entries[name]
      case Number(n) => ToInt(n)
      case Floating(x) => DoubleToInt(x)
      case Text(s) => (match ParseInt(s) case Some(v) => v case None => defaultValue)
      case Other(s) => match ParseInt(s) case Some(v) => v case None => defaultValue
  }

  /** Properties.getProperty(name): the value when it is a String, otherwise null (a
      Number or any other object included). */
  function GetProperty(box: PropertiesBox, name: string): (r: Option<string>)
    ensures r.Some? <==> name in box.entries && box.entries[name].Text?
    ensures r.Some? ==> box.entries[name] == Text(r.value)
  {
    if name in box.entries && box.entries[name].Text? then Some(box.entries[name].s) else None
  }

  /** An integral Number property is read as its low 32 bits: a value within int range comes back
      unchanged, one outside it wraps. */
  lemma TryGetNumber(box: PropertiesBox, name: string, n: int, defaultValue: int)
    requires name in box.entries && box.entries[name] == Number(n)
    ensures TryGetIntProperty(box, name, defaultValue) == ToInt(n)
    ensures IsInt(n) ==> TryGetIntProperty(box, name, defaultValue) == n
    ensures TryGetIntProperty(box, name, defaultValue) % 0x1_0000_0000 == n % 0x1_0000_0000
  {
  }

  /** A property holding the decimal text of an int reads back as that int. */
  lemma TryGetText(box: PropertiesBox, name: string, n: int, defaultValue: int)
    requires IsInt(n)
    requires name in box.entries && box.entries[name] == Text(Show(n))
    ensures TryGetIntProperty(box, name, defaultValue) == n
  {
    ParseIntShow(n);
  }

  /** Text that does not parse as an int (here: no digits at all) gives the default. */
  lemma TryGetUnparsable(box: PropertiesBox, name: string, s: string, defaultValue: int)
    requires name in box.entries && box.entries[name] == Text(s)
    requires ParseInt(s).None?
    ensures TryGetIntProperty(box, name, defaultValue) == defaultValue
  {
  }

  /** Text beyond the int range does not parse either. */
  lemma TryGetOutOfRange(box: PropertiesBox, name: string, n: int, defaultValue: int)
    requires !IsInt(n) && IsLong(n)
    requires name in box.entries && box.entries[name] == Text(Show(n))
    ensures TryGetIntProperty(box, name, defaultValue) == defaultValue
  {
    ParseLongShow(n);
    assert ParseDecimal(Show(n), LONG_MIN, LONG_MAX) == Some(n);
  }

  /** A Double or Float property is cut toward zero and saturates: 1e10 reads as INT_MAX,
      not as its low 32 bits. */
  lemma TryGetFloating(box: PropertiesBox, name: string, x: real, defaultValue: int)
    requires name in box.entries && box.entries[name] == Floating(x)
    ensures TryGetIntProperty(box, name, defaultValue) == DoubleToInt(x)
    ensures x >= INT_MAX as real ==> TryGetIntProperty(box, name, defaultValue) == INT_MAX
    ensures 0.0 <= x < INT_MAX as real ==> TryGetIntProperty(box, name, defaultValue) == x.Floor
  {
  }

  /** An object that is not a String is read by its text like a String is, though
      getProperty does not see it. */
  lemma TryGetOther(box: PropertiesBox, name: string, n: int, defaultValue: int)
    requires IsInt(n)
    requires name in box.entries && box.entries[name] == Other(Show(n))
    ensures TryGetIntProperty(box, name, defaultValue) == n
    ensures GetProperty(box, name).None?
  {
    ParseIntShow(n);
  }
}
