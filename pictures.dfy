/**
  The values the picture service works with: picture records, the requests the
  create handler receives, and what a request handler produces (a response, no
  response at all, or an exception that escapes the handler).
 */
module Pictures {

  /** Python exceptions that a handler of the service can raise. */
  datatype Exception = KeyError | ValueError | TypeError | OverflowError

  /** The exceptions the lookup scan catches and steps past (`except (KeyError, ValueError)`). */
  predicate Caught(e: Exception) {
    e == KeyError || e == ValueError
  }

  /**
    What `int(picture["id"])` does on a stored record: it yields an integer,
    the key is absent (KeyError), or `int()` refuses the stored value and raises
    (ValueError on text such as "abc", TypeError on null, a list or an object,
    OverflowError on an infinite number).
   */
  datatype IdField = IntId(n: int) | Missing | Unconvertible(error: ConversionError)

  /** The exceptions `int()` raises on a value it refuses; never KeyError. */
  type ConversionError = e: Exception | e != KeyError witness ValueError

  /** The exception `int(picture["id"])` raises on an id that does not convert. */
  function IntError(f: IdField): (e: Exception)
    requires !f.IntId?
    ensures f.Missing? ==> e == KeyError
    ensures f.Unconvertible? ==> e == f.error
  {
    if f.Missing? then KeyError else f.error
  }

  /**
    A picture record: a JSON object. The one field the service manages is `id`;
    every other key is kept verbatim with its JSON text.
   */
  datatype Picture = Picture(id: IdField, fields: Fields)

  /** The keys of a record other than `id`, each with its JSON text. */
  type Fields = m: map<string, string> | "id" !in m witness map[]

  /** The keys of the Python dict a record stands for. */
  function Keys(p: Picture): (k: set<string>)
    ensures "id" in k <==> !p.id.Missing?
    ensures k - {"id"} == p.fields.Keys
  {
    if p.id.Missing? then p.fields.Keys else p.fields.Keys + {"id"}
  }

  /** The parsed JSON body of a create request. */
  datatype Body =
    | Object(picture: Picture)
      /** null, a boolean, a number, a string or an array, with its Python truthiness */
    | NonObject(truthy: bool)

  /** A create request: its body is not JSON, or it parses to a JSON value. */
  datatype Request = NotJson | Json(body: Body)

  /** Python truthiness of a parsed body (`not new_picture` is its negation). */
  predicate Truthy(b: Body)
    ensures b.Object? ==> (Truthy(b) <==> |Keys(b.picture)| > 0)
  {
    match b
    case Object(p) => p.id != Missing || p.fields != map[]
    case NonObject(t) => t
  }

  /** The JSON payload of a response. */
  datatype Payload =
    | Status(status: string)
    | Length(length: nat)
    | Pictures(items: seq<Picture>)
    | One(picture: Picture)
    | Message(message: string)
    | Added(message: string, picture: Picture)

  datatype Response = Response(code: int, payload: Payload)

  /** What a handler does: return a response, return None, or raise. */
  datatype Outcome = Returned(response: Response) | ReturnedNone | Raised(error: Exception)

  datatype Result<T> = Ok(value: T) | Err(error: Exception)

  /** Every record's id converts to an integer. */
  predicate AllIntIds(s: seq<Picture>) {
    forall i :: 0 <= i < |s| ==> s[i].id.IntId?
  }

  /** No two records carry the same integer id. */
  predicate DistinctIds(s: seq<Picture>) {
    forall i, j :: 0 <= i < j < |s| && s[i].id.IntId? ==> s[i].id != s[j].id
  }

  /** `s[i]` is the first record whose id does not convert to an integer. */
  predicate FirstBadId(s: seq<Picture>, i: int) {
    0 <= i < |s| && !s[i].id.IntId? && forall j :: 0 <= j < i ==> s[j].id.IntId?
  }

  /** The decimal digits of `n`, as Python's `str` writes a non-negative int. */
  function Decimal(n: nat): (s: string)
    ensures |s| > 0
    ensures forall k :: 0 <= k < |s| ==> '0' <= s[k] <= '9'
    ensures n > 0 ==> s[0] != '0'
    ensures n < 10 <==> |s| == 1
  {
    if n < 10 then [('0' as int + n) as char]
    else Decimal(n / 10) + [('0' as int + n % 10) as char]
  }

  /** The number a string of decimal digits denotes, read left to right. */
  function DigitsValue(s: string): int
    decreases |s|
  {
    if |s| == 0 then 0
    else DigitsValue(s[..|s| - 1]) * 10 + (s[|s| - 1] as int - '0' as int)
  }

  /** `Decimal` writes exactly the digits of `n`: reading them back gives `n`. */
  lemma {:induction false} DecimalValue(n: nat)
    ensures DigitsValue(Decimal(n)) == n
    decreases n
  {
    if n >= 10 {
      var s := Decimal(n);
      assert s[..|s| - 1] == Decimal(n / 10);
      DecimalValue(n / 10);
    }
  }
}
