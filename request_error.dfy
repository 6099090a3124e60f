/** The one expected-failure kind (`RequestError`) and the serialised form in
    which the pipeline hands a failure to the completion context. */
module RequestErrors {
  import opened Values

  /** The `name` every RequestError carries, whatever it was built from. */
  const ErrorName: string := "RequestError"

  /** A constructed RequestError: the three fields its constructor stores. The
      `name` field is the constant `ErrorName` and so is not stored. */
  datatype RequestError = RequestError(code: Value, message: Value, details: Value)

  /** The i-th argument of a JavaScript call, `undefined` when it was omitted. */
  function Arg(args: seq<Value>, i: nat): Value {
    if i < |args| then args[i] else Undefined
  }

  /** `new RequestError(...args)`: the first three arguments are stored as they are
      passed, omitted ones stay `undefined`, further ones are ignored. */
  function New(args: seq<Value>): (e: RequestError)
    ensures |args| >= 3 ==> e == RequestError(args[0], args[1], args[2])
    ensures |args| == 2 ==> e == RequestError(args[0], args[1], Undefined)
    ensures |args| == 1 ==> e == RequestError(args[0], Undefined, Undefined)
    ensures |args| == 0 ==> e == RequestError(Undefined, Undefined, Undefined)
  {
    RequestError(Arg(args, 0), Arg(args, 1), Arg(args, 2))
  }

  /** A serialised object: its members, in order, as `JSON.stringify` writes them. */
  type Json = seq<(string, Value)>

  /** The member `key: v`, or nothing when `v` is `undefined` (JSON omits such members). */
  function Member(key: string, v: Value): Json {
    if v.Undefined? then [] else [(key, v)]
  }

  /** `JSON.stringify(error)` for a RequestError: its own enumerable fields in the order
      the constructor assigned them (`name`, `code`, `message`, `details`). */
  function Serialize(e: RequestError): (s: Json)
    ensures 1 <= |s| <= 4
    ensures s[0] == ("name", Str(ErrorName))
    ensures forall i :: 0 <= i < |s| ==> !s[i].1.Undefined?
  {
    [("name", Str(ErrorName))] + Member("code", e.code) + Member("message", e.message)
      + Member("details", e.details)
  }

  /** The value of the first member named `key`, `undefined` when there is none
      (what a reader of the serialised object sees as `obj[key]`). */
  function Lookup(s: Json, key: string): Value
    decreases |s|
  {
    if |s| == 0 then Undefined
    else if s[0].0 == key then s[0].1
    else Lookup(s[1..], key)
  }

  /** Reading a serialised object back as the fields of a RequestError. */
  function Parse(s: Json): RequestError {
    RequestError(Lookup(s, "code"), Lookup(s, "message"), Lookup(s, "details"))
  }

  /** Members whose names differ from `key` do not hide a later member named `key`. */
  lemma {:induction false} LookupSkip(a: Json, b: Json, key: string)
    requires forall i :: 0 <= i < |a| ==> a[i].0 != key
    ensures Lookup(a + b, key) == Lookup(b, key)
    decreases |a|
  {
    if |a| == 0 {
      assert a + b == b;
    } else {
      assert (a + b)[0] == a[0];
      assert (a + b)[1..] == a[1..] + b;
      LookupSkip(a[1..], b, key);
    }
  }

  /** Looking `key` up in what follows `Member(key, v)` gives `v` back. */
  lemma MemberLookup(key: string, v: Value, rest: Json)
    requires Lookup(rest, key).Undefined?
    ensures Lookup(Member(key, v) + rest, key) == v
  {
    if !v.Undefined? {
      assert (Member(key, v) + rest)[0] == (key, v);
    } else {
      assert Member(key, v) + rest == rest;
    }
  }

  /** Every field survives serialisation: reading the serialised object back gives the
      same code, message and details, and its `name` is always "RequestError". */
  lemma {:induction false} ParseSerialize(e: RequestError)
    ensures Parse(Serialize(e)) == e
    ensures Lookup(Serialize(e), "name") == Str(ErrorName)
  {
    var name: Json := [("name", Str(ErrorName))];
    var code := Member("code", e.code);
    var message := Member("message", e.message);
    var details := Member("details", e.details);
    assert Serialize(e) == name + (code + (message + details));
    // "details" is the last member written
    MemberLookup("details", e.details, []);
    assert details == Member("details", e.details) + [];
    LookupSkip(message, details, "details");
    LookupSkip(code, message + details, "details");
    LookupSkip(name, code + (message + details), "details");
    // "message" comes before it
    LookupSkip(details, [], "message");
    assert details + [] == details;
    MemberLookup("message", e.message, details);
    LookupSkip(code, message + details, "message");
    LookupSkip(name, code + (message + details), "message");
    // "code" before that
    LookupSkip(message, details, "code");
    LookupSkip(details, [], "code");
    MemberLookup("code", e.code, message + details);
    LookupSkip(name, code + (message + details), "code");
  }

  /** A field value that `JSON.stringify` writes by its value alone: not an object or
      function, whose text depends on contents the model does not track. */
  predicate IsPrimitive(v: Value) {
    !v.Ref?
  }

  predicate HasPrimitiveFields(e: RequestError) {
    IsPrimitive(e.code) && IsPrimitive(e.message) && IsPrimitive(e.details)
  }

  /** The serialised failure depends on the fields and on nothing else; and when no
      field holds an object or function, the serialised failure determines the fields. */
  lemma SerializeInjective(a: RequestError, b: RequestError)
    ensures a == b ==> Serialize(a) == Serialize(b)
    ensures HasPrimitiveFields(a) && HasPrimitiveFields(b) && Serialize(a) == Serialize(b) ==> a == b
  {
    if Serialize(a) == Serialize(b) {
      ParseSerialize(a);
      ParseSerialize(b);
    }
  }
}
