/** Lenient decoding of reply bodies into the client's models, field by
    field: an absent field takes its declared default, a field without a
    default is required, and a present field of the wrong JSON type makes
    the whole decoding fail with a ValidationError. Unknown keys are ignored. */
module Fields {
  import opened Wrappers
  import opened Json
  import opened Exceptions

  function AsStr(j: Json): Option<string> {
    if j.JStr? then Some(j.s) else None
  }

  function AsInt(j: Json): Option<int> {
    if j.JInt? then Some(j.i) else None
  }

  function AsBool(j: Json): Option<bool> {
    if j.JBool? then Some(j.b) else None
  }

  /** The key is absent, or present with a value `conv` accepts. */
  predicate Fits<T>(d: map<string, Json>, key: string, conv: Json -> Option<T>) {
    key !in d || conv(d[key]).Some?
  }

  /** A nested-model field is absent, or holds an object that decodes. */
  predicate ModelFits<T>(d: map<string, Json>, key: string, decode: map<string, Json> -> Result<T, Exception>) {
    key !in d || (d[key].JObj? && decode(d[key].fields).Success?)
  }

  /** A list field is absent, or holds a list whose elements all decode. */
  predicate ListFits<T>(d: map<string, Json>, key: string, decode: Json -> Result<T, Exception>) {
    key !in d || (d[key].JArr? && DecodeEach(d[key].items, decode).Success?)
  }

  /** A declared field `key: T = default`; a `None` default makes the field required. */
  function Field<T>(d: map<string, Json>, key: string, default: Option<T>, conv: Json -> Option<T>): (r: Result<T, Exception>)
    ensures r.Success? <==> if key in d then conv(d[key]).Some? else default.Some?
    ensures r.Success? ==> r.value == if key in d then conv(d[key]).value else default.value
    ensures r.Failure? ==> r.error == ValidationError
  {
    if key in d then
      match conv(d[key])
      case Some(v) => Success(v)
      case None => Failure(ValidationError)
    else
      match default
      case Some(v) => Success(v)
      case None => Failure(ValidationError)
  }

  /** A field whose declared default is not a value of its type: an absent key reads as None. */
  function OptionalField<T>(d: map<string, Json>, key: string, conv: Json -> Option<T>): (r: Result<Option<T>, Exception>)
    ensures r.Success? <==> Fits(d, key, conv)
    ensures r.Success? ==> r.value == if key in d then conv(d[key]) else None
    ensures r.Failure? ==> r.error == ValidationError
  {
    if key in d then
      match conv(d[key])
      case Some(v) => Success(Some(v))
      case None => Failure(ValidationError)
    else
      Success(None)
  }

  /** `Model.parse_obj(j)`: only an object can be decoded. */
  function ParseObj<T>(j: Json, decode: map<string, Json> -> Result<T, Exception>): Result<T, Exception> {
    if j.JObj? then decode(j.fields) else Failure(ValidationError)
  }

  /** A nested-model field with a default value. */
  function ModelField<T>(d: map<string, Json>, key: string, decode: map<string, Json> -> Result<T, Exception>, default: T): (r: Result<T, Exception>)
    ensures r.Success? <==> ModelFits(d, key, decode)
    ensures r.Success? ==> r.value == if key in d then decode(d[key].fields).value else default
    ensures r.Failure? ==> key in d && r == ParseObj(d[key], decode)
  {
    if key in d then ParseObj(d[key], decode) else Success(default)
  }

  /** A list field that defaults to the empty list. */
  function ListField<T>(d: map<string, Json>, key: string, decode: Json -> Result<T, Exception>): (r: Result<seq<T>, Exception>)
    ensures r.Success? <==> ListFits(d, key, decode)
    ensures r.Success? ==> r.value == if key in d then DecodeEach(d[key].items, decode).value else []
    ensures r.Failure? ==> key in d && (d[key].JArr? ==> r == DecodeEach(d[key].items, decode))
  {
    if key !in d then Success([])
    else if d[key].JArr? then DecodeEach(d[key].items, decode)
    else Failure(ValidationError)
  }

  /** Decoding the elements of a list in order, stopping at the first
      element that does not decode. */
  function DecodeEach<T>(xs: seq<Json>, decode: Json -> Result<T, Exception>): (r: Result<seq<T>, Exception>)
    ensures r.Success? <==> forall i | 0 <= i < |xs| :: decode(xs[i]).Success?
    ensures r.Success? ==> |r.value| == |xs| && forall i | 0 <= i < |xs| :: decode(xs[i]) == Success(r.value[i])
    ensures r.Failure? ==> exists k | 0 <= k < |xs| ::
      decode(xs[k]) == Failure(r.error) && forall i | 0 <= i < k :: decode(xs[i]).Success?
    decreases |xs|
  {
    if xs == [] then Success([])
    else
      var init :- DecodeEach(xs[..|xs| - 1], decode);
      var last :- decode(xs[|xs| - 1]);
      Success(init + [last])
  }

  /** The result is fixed by the decoded elements: a list whose elements all
      decode gives exactly their values, and one element that fails, after
      a decodable prefix, gives that element's failure. */
  lemma DecodeEachFirstFailure<T>(xs: seq<Json>, decode: Json -> Result<T, Exception>, k: nat)
    requires k < |xs|
    requires DecodeEach(xs[..k], decode).Success?
    requires decode(xs[k]).Failure?
    ensures DecodeEach(xs, decode) == Failure(decode(xs[k]).error)
  {
    forall i | 0 <= i < k
      ensures decode(xs[i]).Success?
    {
      assert xs[..k][i] == xs[i];
    }
    var r := DecodeEach(xs, decode);
    var j :| 0 <= j < |xs| && decode(xs[j]) == Failure(r.error) && forall i | 0 <= i < j :: decode(xs[i]).Success?;
    assert j == k;
  }

  /** Decoding a longer prefix extends the decoded prefix by one element. */
  lemma DecodeEachExtend<T>(xs: seq<Json>, decode: Json -> Result<T, Exception>, i: nat, done: seq<T>)
    requires i < |xs|
    requires DecodeEach(xs[..i], decode) == Success(done)
    requires decode(xs[i]).Success?
    ensures DecodeEach(xs[..i + 1], decode) == Success(done + [decode(xs[i]).value])
  {
    assert xs[..i + 1][..i] == xs[..i];
  }
}
