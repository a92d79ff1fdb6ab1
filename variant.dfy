/**
 * The dynamically typed field values an RSS article is built from: the
 * entries of a variant hash (or of a JSON object), the date-time type they
 * may carry, and the conversions the article applies when it reads a field.
 */
module Variant {

  /** A point in time, or the "invalid date-time" a missing or unparsable
      date produces. Only the order of date-times matters to an article. */
  datatype DateTime = Invalid | At(msecs: int)

  /** `a > b` on date-times: every valid date-time is later than the invalid
      one, two invalid date-times are equal, valid ones compare by instant. */
  function After(a: DateTime, b: DateTime): (r: bool)
    ensures r ==> a.At? && a != b
    ensures a.At? && b.Invalid? ==> r
    ensures a.At? && b.At? ==> (r <==> a.msecs > b.msecs)
  {
    match (a, b)
    case (At(x), At(y)) => x > y
    case (At(_), Invalid) => true
    case (Invalid, _) => false
  }

  /** `After` is a strict order: irreflexive, asymmetric and transitive. */
  lemma AfterIsStrictOrder(a: DateTime, b: DateTime, c: DateTime)
    ensures !After(a, a)
    ensures After(a, b) ==> !After(b, a)
    ensures After(a, b) && After(b, c) ==> After(a, c)
  {
  }

  /** ... and a total one: of two different date-times one is later. */
  lemma AfterIsTotal(a: DateTime, b: DateTime)
    ensures a != b <==> After(a, b) || After(b, a)
  {
  }

  /** One entry of a field bag. */
  datatype Value = Text(s: string) | Flag(b: bool) | Number(n: int) | Stamp(d: DateTime)

  /** A field bag: a variant hash, or a JSON object, keyed by field name. */
  type Object = map<string, Value>

  /** `hash.value(key).toString()`: the text of a string entry, and the empty
      string for a missing key or an entry of another type. */
  function TextAt(hash: Object, key: string): (r: string)
    ensures key in hash && hash[key].Text? ==> r == hash[key].s
    ensures r != "" ==> key in hash && hash[key] == Text(r)
  {
    if key in hash && hash[key].Text? then hash[key].s else ""
  }

  /** `hash.value(key, default).toBool()`: the default when the key is
      missing, otherwise the entry's truth value (false unless it is a flag). */
  function BoolAt(hash: Object, key: string, default: bool): (r: bool)
    ensures key !in hash ==> r == default
    ensures key in hash ==> (r <==> hash[key] == Flag(true))
  {
    if key !in hash then default else hash[key] == Flag(true)
  }

  /** `hash.value(key).toDateTime()`: the date-time of a date-time entry, and
      the invalid date-time otherwise. */
  function DateAt(hash: Object, key: string): (r: DateTime)
    ensures r.At? ==> key in hash && hash[key] == Stamp(r)
    ensures key in hash && hash[key].Stamp? ==> r == hash[key].d
  {
    if key in hash && hash[key].Stamp? then hash[key].d else Invalid
  }
}
