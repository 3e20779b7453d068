/**
 * The part of Python's value model the bot depends on: decoded JSON values,
 * the exception classes raised on the modelled paths, and the built-in
 * operations whose outcome decides a branch (`in`, `dict.get`, hashing, `str`).
 */
module PyValues {
  import opened Wrappers

  /** A value decoded from a JSON body. Numbers are integers only. */
  datatype Json =
    | JNull
    | JBool(b: bool)
    | JInt(i: int)
    | JStr(s: string)
    | JList(items: seq<Json>)
    | JObject(fields: map<string, Json>)

  /**
   * The exception classes raised on the modelled paths. No one of them is a
   * subclass of another, so `isinstance(e, type(f))` between two of them
   * holds exactly when they are the same class.
   */
  datatype ErrKind =
    | ConnectionError
    | TypeError
    | KeyError
    | IndexError
    | AttributeError
    | InvalidTokens
    | InvalidJSONError

  /** `d.get(key)` on a dict: the value under `key`, or `None` when absent. */
  function Get(fields: map<string, Json>, key: string): Json
  {
    if key in fields then fields[key] else JNull
  }

  /** Whether `p` occurs as a contiguous run of characters in `s` (Python's `p in s` on strings). */
  function Occurs(p: string, s: string): bool
    decreases |s|
  {
    p <= s || (s != [] && Occurs(p, s[1..]))
  }

  /** `p` is found in `s` starting at index `k`. */
  predicate OccursAt(p: string, s: string, k: int)
  {
    0 <= k && k + |p| <= |s| && s[k..k + |p|] == p
  }

  /** `Occurs` agrees with the positional definition of a substring. */
  lemma {:induction false} OccursIffAt(p: string, s: string)
    ensures Occurs(p, s) <==> exists k :: OccursAt(p, s, k)
    decreases |s|
  {
    if p <= s {
      assert OccursAt(p, s, 0);
    } else if s == [] {
    } else {
      OccursIffAt(p, s[1..]);
      if Occurs(p, s[1..]) {
        var k :| OccursAt(p, s[1..], k);
        assert s[k + 1..k + 1 + |p|] == s[1..][k..k + |p|];
        assert OccursAt(p, s, k + 1);
      } else {
        forall k | 0 < k
          ensures !OccursAt(p, s, k)
        {
          assert OccursAt(p, s, k) ==> OccursAt(p, s[1..], k - 1);
        }
      }
    }
  }

  /**
   * Python's `key in container` for a string `key`: dict membership tests the
   * keys, list membership compares elements, string membership looks for a
   * substring, and any other value is not iterable and raises TypeError.
   */
  function In(key: string, container: Json): (r: Result<bool, ErrKind>)
    ensures r.Failure? <==> container.JNull? || container.JBool? || container.JInt?
    ensures r.Failure? ==> r.error == TypeError
    ensures container.JObject? ==> r == Success(key in container.fields)
    ensures container.JList? ==> r == Success(JStr(key) in container.items)
    ensures container.JStr? ==> r == Success(exists k :: OccursAt(key, container.s, k))
  {
    match container
    case JObject(fields) => Success(key in fields)
    case JList(items) => Success(JStr(key) in items)
    case JStr(s) =>
      OccursIffAt(key, s);
      Success(Occurs(key, s))
    case _ => Failure(TypeError)
  }

  /** Lists and dicts are unhashable: using one as a dict key raises TypeError. */
  predicate Hashable(j: Json)
  {
    !(j.JList? || j.JObject?)
  }

  function DigitChar(d: nat): char
    requires d < 10
  {
    "0123456789"[d]
  }

  /** The decimal numeral of `n`, without leading zeros. */
  function Digits(n: nat): (s: string)
    ensures |s| >= 1
    ensures forall i :: 0 <= i < |s| ==> '0' <= s[i] <= '9'
  {
    if n < 10 then [DigitChar(n)] else Digits(n / 10) + [DigitChar(n % 10)]
  }

  /**
   * `str(v)` for the value a format field receives. Exact for None, booleans,
   * integers and strings; lists and dicts are rendered by placeholders.
   */
  function Str(j: Json): string
  {
    match j
    case JNull => "None"
    case JBool(b) => if b then "True" else "False"
    case JInt(i) => if i < 0 then "-" + Digits(-i) else Digits(i)
    case JStr(s) => s
    case JList(_) => "[...]"
    case JObject(_) => "{...}"
  }
}
