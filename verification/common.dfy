/** Values shared by every handler: identifiers, request bodies as JSON values,
    JavaScript truthiness, and the outcome of a handler (a response value or an
    error passed to the framework's error handler). */
module Common {

  /** A document identifier, as the string form `req.params.id` / `req.user.id`. */
  type Id = string

  /** A hexadecimal digit as an ObjectId renders it: `A`-`F` become `a`-`f`,
      every other character is kept. */
  function LowerHex(c: char): (r: char)
    ensures 'A' <= c <= 'F' ==> 'a' <= r <= 'f' && r as int - c as int == 'a' as int - 'A' as int
    ensures !('A' <= c <= 'F') ==> r == c
  {
    if 'A' <= c <= 'F' then (c as int - 'A' as int + 'a' as int) as char else c
  }

  /** An id in the form an ObjectId renders: no upper-case hex digit. The ids of
      stored documents and `req.user.id` are in this form. */
  predicate Canonical(id: Id)
  {
    forall i :: 0 <= i < |id| ==> !('A' <= id[i] <= 'F')
  }

  /** The id a string names once cast to an ObjectId: a well-formed id (24 hex
      digits, either case accepted) with its hex digits in lower case. Every
      query (`findById`, `findByIdAndUpdate`, `findOne({ _id, user })`) matches
      stored ids against this form, not against the raw string. */
  function Canon(id: Id): (r: Id)
    ensures |r| == |id| && Canonical(r)
    ensures forall i :: 0 <= i < |id| ==> r[i] == LowerHex(id[i])
    ensures Canonical(id) ==> r == id
  {
    seq(|id|, i requires 0 <= i < |id| => LowerHex(id[i]))
  }

  /** Casting an id twice is casting it once. */
  lemma CanonIdempotent(id: Id)
    ensures Canon(Canon(id)) == Canon(id)
  {
  }

  /** The same id with its hex digits `a`-`f` in upper case: another spelling
      `ObjectId.isValid` accepts and that names the same document. */
  function UpperHex(id: Id): (r: Id)
    ensures |r| == |id|
    ensures forall i :: 0 <= i < |id| && 'a' <= id[i] <= 'f' ==> 'A' <= r[i] <= 'F'
    ensures Canonical(id) ==> Canon(r) == id
  {
    seq(|id|, i requires 0 <= i < |id| =>
      if 'a' <= id[i] <= 'f' then (id[i] as int - 'a' as int + 'A' as int) as char else id[i])
  }

  datatype Option<+T> = None | Some(value: T)

  /** A JSON value as the body parser delivers it. Numbers are integers here;
      `Composite` stands for any array or object (always truthy in JavaScript),
      with `idField` the object's `_id` property when that is a string. */
  datatype Value = Str(s: string) | Num(n: int) | Bool(b: bool) | Null | Composite(idField: Option<string>)

  /** A parsed JSON request body: the object's own keys and their values. */
  type Body = map<string, Value>

  /** JavaScript truthiness of a value. */
  predicate Truthy(v: Value)
  {
    match v
    case Str(s) => s != ""
    case Num(n) => n != 0
    case Bool(b) => b
    case Null => false
    case Composite(_) => true
  }

  /** `body[key]` is truthy; an absent key reads as `undefined`, which is falsy. */
  predicate TruthyField(body: Body, key: string)
  {
    key in body && Truthy(body[key])
  }

  /** An error handed to `next(...)`: an application error with its message and
      HTTP status, or a schema validation/cast failure raised by the persistence
      layer (whose status the global error handler decides). */
  datatype Error = AppError(message: string, statusCode: int) | ValidationFailed

  datatype Result<+T> = Ok(value: T) | Err(error: Error) {
    predicate IsFailure() { Err? }

    function PropagateFailure<U>(): Result<U>
      requires Err?
    {
      Err(error)
    }

    function Extract(): T
      requires Ok?
    {
      value
    }
  }
}
