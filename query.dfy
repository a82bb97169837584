/** The shapes the storefront's store client hands back, shared by every
    page that reads from it: optional values, one-to-one joins that arrive
    as an object or as an array holding it, and the `single` and
    `maybeSingle` row modifiers. */
module Query {

  datatype Option<T> = None | Some(value: T)

  /** A joined row as the store returns it: an object, or an array whose
      first element is the object. */
  datatype Joined<T> = Object(obj: T) | Array(elems: seq<T>)

  /** A join through a non-null foreign key is an object or a non-empty
      array. */
  predicate WellJoined<T>(j: Joined<T>) {
    j.Array? ==> |j.elems| > 0
  }

  /** `Array.isArray(x) ? x[0] : x`, the normalisation every page applies. */
  function Embedded<T>(j: Joined<T>): (r: T)
    requires WellJoined(j)
    ensures j.Object? ==> r == j.obj
    ensures j.Array? ==> r == j.elems[0]
  {
    match j
    case Object(x) => x
    case Array(xs) => xs[0]
  }

  /** A response: the data, if any, and whether an error was reported. */
  datatype Response<T> = Response(data: Option<T>, error: bool)

  /** `.single()`: exactly one matching row is data; none or several is an
      error without data. */
  function Single<T>(rows: seq<T>): (r: Response<T>)
    ensures r.data.Some? <==> |rows| == 1
    ensures r.data.Some? ==> r.data.value == rows[0]
    ensures r.error <==> |rows| != 1
  {
    if |rows| == 1 then Response(Some(rows[0]), false) else Response(None, true)
  }

  /** `.maybeSingle()`: no matching row is no data and no error; several is
      an error. */
  function MaybeSingle<T>(rows: seq<T>): (r: Response<T>)
    ensures r.data.Some? <==> |rows| == 1
    ensures r.data.Some? ==> r.data.value == rows[0]
    ensures r.error <==> |rows| > 1
  {
    if |rows| == 1 then Response(Some(rows[0]), false)
    else if rows == [] then Response(None, false)
    else Response(None, true)
  }

  /** The two modifiers agree on data and differ only in reporting the
      empty result as an error. */
  lemma SingleVersusMaybeSingle<T>(rows: seq<T>)
    ensures Single(rows).data == MaybeSingle(rows).data
    ensures Single(rows).error == (MaybeSingle(rows).error || rows == [])
  {
  }
}
