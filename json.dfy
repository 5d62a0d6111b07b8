/** The JSON values that travel between the page and the servers. */
module Json {
  /** A decoded JSON value. Numbers are integers: the page model reads only integer batch
      sizes (its `Number` takes decimal fractions as NaN), and `JSON.stringify` makes `null` of
      NaN. Booleans, fractions, arrays and nested objects, which no modelled operation looks
      inside, are `Other`. */
  datatype Value = Null | Num(n: int) | Str(s: string) | Other

  /** A JSON object, as `json.loads` returns it for a request body and as the page builds it. */
  type Object = map<string, Value>
}
