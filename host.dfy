/** What both dashboards take from the Python runtime. The model does not define Python's
    number grammar, number formatting or clock text; a `Runtime` value supplies them, so every
    tick is deterministic once the runtime, the received line and the current time are fixed. */
module Host {
  import opened Wrappers
  import opened PyStr

  /** The exceptions that can escape `read_arduino_data`: neither is a ValueError, so the
      `except ValueError` clauses around each metric do not catch them. */
  datatype Raised =
    | IndexError                         // `split(":")[1]` of a line without ':', `pop(0)` of an empty list
    | UnboundLocalError(variable: string)  // a local read before its first assignment

  /** Python's `float(text)` and `int(text)` (None where they raise ValueError), `str()` of a
      float and of an int as an f-string prints them, and `time.ctime()` at a given instant. */
  datatype Runtime = Runtime(
    parseFloat: string -> Option<real>,
    parseInt: string -> Option<int>,
    floatText: real -> string,
    intText: int -> string,
    ctime: real -> string)

  /** The value part of a labelled line: no second field (IndexError), a field that does not
      parse (ValueError), or the parsed number. */
  datatype Parsed<T> = Missing | Malformed | Value(v: T)

  /** What one metric's block finds in a line: its label absent, or present with the value
      part as parsed. */
  datatype Reading<T> = Unlabelled | Labelled(parsed: Parsed<T>)

  /** The block's label is in the line but the line has no ':' to split on. */
  predicate NoField<T>(r: Reading<T>)
  {
    r.Labelled? && r.parsed.Missing?
  }

  /** The separator of "Label: value" lines. */
  const Colon: char := ':'

  /** `float(data.split(":")[1].replace(unit, "").strip())`. */
  function FloatField(data: string, unit: string, rt: Runtime): (p: Parsed<real>)
    requires unit != []
    ensures p.Missing? <==> Colon !in data
  {
    match SecondField(data, Colon)
    case None => Missing
    case Some(field) =>
      match rt.parseFloat(Strip(RemoveAll(field, unit)))
      case None => Malformed
      case Some(x) => Value(x)
  }

  /** `int(data.split(":")[1].strip())`. */
  function IntField(data: string, rt: Runtime): (p: Parsed<int>)
    ensures p.Missing? <==> Colon !in data
  {
    match SecondField(data, Colon)
    case None => Missing
    case Some(field) =>
      match rt.parseInt(Strip(field))
      case None => Malformed
      case Some(n) => Value(n)
  }

  /** A line "tag: x" followed by the unit, with no ':' in the label, the number or the unit,
      yields `float(x)`: the field is " x" plus the unit, the unit is removed, and the space
      is stripped. The unit must not overlap itself, nor occur in " x". */
  lemma FloatFieldOf(tag: string, x: string, unit: string, rt: Runtime)
    requires Colon !in tag && Colon !in x && Colon !in unit
    requires unit != [] && SelfDisjoint(unit) && !Contains(" " + x, unit)
    requires x != [] && !IsSpace(x[0]) && !IsSpace(x[|x| - 1])
    ensures FloatField(tag + ": " + x + unit, unit, rt)
      == match rt.parseFloat(x) case None => Malformed case Some(v) => Value(v)
  {
    assert tag + ": " + x + unit == tag + [Colon] + (" " + x + unit);
    SecondFieldOf(tag, Colon, " " + x + unit);
    RemoveAllAfter(" " + x, unit, "");
    assert " " + x + unit + "" == " " + x + unit;
    StripPadded(" ", x, "");
    assert " " + x + "" == " " + x;
  }

  /** A line "tag: x", with no ':' in the label or the number, yields `int(x)`. */
  lemma IntFieldOf(tag: string, x: string, rt: Runtime)
    requires Colon !in tag && Colon !in x
    requires x != [] && !IsSpace(x[0]) && !IsSpace(x[|x| - 1])
    ensures IntField(tag + ": " + x, rt) == match rt.parseInt(x) case None => Malformed case Some(n) => Value(n)
  {
    assert tag + ": " + x == tag + [Colon] + (" " + x);
    SecondFieldOf(tag, Colon, " " + x);
    StripPadded(" ", x, "");
    assert " " + x + "" == " " + x;
  }

  /** `tag in data`, then `float(data.split(":")[1].replace(unit, "").strip())`. */
  function FloatReading(data: string, tag: string, unit: string, rt: Runtime): (r: Reading<real>)
    requires unit != []
    ensures r.Labelled? <==> Contains(data, tag)
    ensures NoField(r) <==> Contains(data, tag) && Colon !in data
  {
    if Contains(data, tag) then Labelled(FloatField(data, unit, rt)) else Unlabelled
  }

  /** `tag in data`, then `int(data.split(":")[1].strip())`. */
  function IntReading(data: string, tag: string, rt: Runtime): (r: Reading<int>)
    ensures r.Labelled? <==> Contains(data, tag)
    ensures NoField(r) <==> Contains(data, tag) && Colon !in data
  {
    if Contains(data, tag) then Labelled(IntField(data, rt)) else Unlabelled
  }
}
