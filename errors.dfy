/** `DeboException`: an HTTP status code with an error message, the two
    tables that give the reason phrase and the default message of each code
    the service uses, and the map the exception is reported as. */
module Errors {

  import opened Wrappers

  /** The codes the service reports. */
  const Codes: set<int> := {400, 401, 404, 412, 500}

  /** `STATUSES`: the reason phrase of each code. */
  const Statuses: map<int, string> :=
    map[400 := "Bad Request",
        401 := "Unauthorized",
        404 := "Not Found",
        500 := "Internal Server Error",
        412 := "Precondition Failed"]

  /** `ERRORS`: the default message of each code. */
  const Messages: map<int, string> :=
    map[400 := "The server cannot or will not process the request.",
        401 := "Authentication is required and has failed or has not yet been provided.",
        404 := "The requested resource could not be found.",
        500 := "An unexpected condition was encountered.",
        412 := "Please create a new token and/or user."]

  /** `HashMap.get`: the entry of `key`, or null when there is none. */
  function Get(m: map<int, string>, key: int): (r: Option<string>)
    ensures r.Some? <==> key in m
    ensures r.Some? ==> r.value == m[key]
  {
    if key in m then Some(m[key]) else None
  }

  /** Every code has both a reason phrase and a default message, and no
      other code has either. */
  lemma TablesAgree()
    ensures Statuses.Keys == Codes && Messages.Keys == Codes
  {
    assert Statuses.Keys == {400, 401, 404, 500, 412};
    assert Messages.Keys == {400, 401, 404, 500, 412};
  }

  /** A value of the map `toMap` returns: the boxed code, or a string that
      may be null. */
  datatype Value = Number(n: int) | Text(s: Option<string>)

  class DeboException {
    var code: int
    var error: Option<string>

    /** `DeboException(code, error)`. */
    constructor (code: int, error: Option<string>)
      ensures this.code == code && this.error == error
    {
      this.code := code;
      this.error := error;
    }

    /** `DeboException(code)`: the default message of the code, or null for
        a code outside the table. */
    constructor WithDefaultMessage(code: int)
      ensures this.code == code
      ensures this.error == Get(Messages, code)
    {
      this.code := code;
      this.error := Get(Messages, code);
    }

    /** `toMap`: exactly the keys `code`, `status` and `error`, holding the
        code, its reason phrase (null outside the table) and the message. */
    method ToMap() returns (m: map<string, Value>)
      ensures m.Keys == {"code", "status", "error"}
      ensures m["code"] == Number(code)
      ensures m["status"] == Text(Get(Statuses, code))
      ensures m["error"] == Text(error)
    {
      m := map[];
      m := m["code" := Number(code)];
      m := m["status" := Text(Get(Statuses, code))];
      m := m["error" := Text(error)];
    }
  }

  /** `new DeboException(code).toMap()`: for a code the service uses, both
      the reason phrase and the message are present and come from the two
      tables; for any other code both are null. */
  method Report(code: int) returns (m: map<string, Value>)
    ensures m.Keys == {"code", "status", "error"}
    ensures m["code"] == Number(code)
    ensures code in Codes ==>
              m["status"] == Text(Some(Statuses[code])) && m["error"] == Text(Some(Messages[code]))
    ensures code !in Codes ==> m["status"] == Text(None) && m["error"] == Text(None)
  {
    TablesAgree();
    var e := new DeboException.WithDefaultMessage(code);
    m := e.ToMap();
  }
}
