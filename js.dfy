/**
 * Values shared by every part of the authentication front end: optional
 * values, settled promises, the shapes of thrown values, the user record,
 * JavaScript truthiness of a `string | null` and `String.prototype.includes`.
 */
module Js {

  datatype Option<+T> = None | Some(value: T)

  /** The outcome of an awaited call: it resolves with a value or rejects with a thrown value. */
  datatype Settled<+T> = Resolved(value: T) | Rejected(error: Thrown)

  /** An HTTP response as an error carries it: its status and `data.message`. */
  datatype HttpResponse = HttpResponse(status: int, message: Option<string>)

  /**
   * A thrown value, distinguished the way the code inspects it.
   * AxiosFailure is an axios error (an `Error` instance); it has a `response`
   * key exactly when `response` is Some, and `url` is its `config.url`.
   */
  datatype Thrown =
    | AxiosFailure(response: Option<HttpResponse>, url: Option<string>, message: string)
    | ErrorValue(message: string)
    | StringValue(text: string)
    | OtherValue

  datatype Role = Student | Teacher

  datatype User = User(id: int, email: string, role: Role)

  /** The body of a login request. */
  datatype LoginData = LoginData(email: string, password: string)

  /** The body of a register request: login data and a role. */
  datatype RegisterData = RegisterData(email: string, password: string, role: Role)

  /** An endpoint call: its method, its path relative to the base domain, and its body. */
  datatype Request =
    | Post(path: string, body: Body)
    | Get(path: string)

  datatype Body = LoginBody(login: LoginData) | RegisterBody(register: RegisterData)

  /** The body of a successful login or register response. */
  datatype AuthResponse = AuthResponse(accessToken: string, user: User)

  /** JavaScript truthiness of a `string | null`: null and "" are falsy. */
  predicate Truthy(s: Option<string>)
  {
    s.Some? && s.value != ""
  }

  /** `error?.response?.status` */
  function StatusOf(e: Thrown): Option<int>
  {
    if e.AxiosFailure? && e.response.Some? then Some(e.response.value.status) else None
  }

  /** `err.response?.data?.message`: only an error carrying a response has one. */
  function ServerMessage(e: Thrown): Option<string>
  {
    if e.AxiosFailure? && e.response.Some? then e.response.value.message else None
  }

  /** `error?.message`: `Error` instances have one, strings and other values do not. */
  function MessageField(e: Option<Thrown>): Option<string>
  {
    match e
    case Some(AxiosFailure(_, _, m)) => Some(m)
    case Some(ErrorValue(m)) => Some(m)
    case _ => None
  }

  /** `a || fallback` on a `string | undefined`. */
  function OrElse(a: Option<string>, fallback: string): string
  {
    if Truthy(a) then a.value else fallback
  }

  predicate StartsWith(s: string, prefix: string)
  {
    |prefix| <= |s| && s[..|prefix|] == prefix
  }

  /** `s.includes(sub)`, defined by recursion on `s`. */
  predicate Includes(s: string, sub: string)
    decreases |s|
  {
    |sub| <= |s| && (StartsWith(s, sub) || Includes(s[1..], sub))
  }

  /** `sub` occurs in `s` at index `i`. */
  predicate OccursAt(s: string, sub: string, i: int)
  {
    0 <= i <= |s| - |sub| && s[i..i + |sub|] == sub
  }

  /** Includes agrees with "sub occurs at some index of s". */
  lemma {:induction false} IncludesAt(s: string, sub: string)
    ensures Includes(s, sub) <==> exists i :: OccursAt(s, sub, i)
    decreases |s|
  {
    if |sub| <= |s| {
      if StartsWith(s, sub) {
        assert OccursAt(s, sub, 0);
      } else if |s| > 0 {
        IncludesAt(s[1..], sub);
        if Includes(s[1..], sub) {
          var i :| OccursAt(s[1..], sub, i);
          assert OccursAt(s, sub, i + 1);
        }
        if exists i :: OccursAt(s, sub, i) {
          var i :| OccursAt(s, sub, i);
          assert i != 0;
          assert OccursAt(s[1..], sub, i - 1);
        }
      }
    }
  }

  /** The first truthy message of a list, the meaning of a chain `m1 || m2 || ... || null`. */
  function FirstTruthy(ms: seq<Option<string>>): Option<string>
  {
    if ms == [] then None else if Truthy(ms[0]) then ms[0] else FirstTruthy(ms[1..])
  }

  /** FirstTruthy picks a truthy element all of whose predecessors are falsy, and is null only when every element is falsy. */
  lemma {:induction false} FirstTruthyIsFirst(ms: seq<Option<string>>)
    ensures FirstTruthy(ms).Some? ==> Truthy(FirstTruthy(ms))
    ensures FirstTruthy(ms).Some? ==>
      exists i :: 0 <= i < |ms| && ms[i] == FirstTruthy(ms) && forall j :: 0 <= j < i ==> !Truthy(ms[j])
    ensures FirstTruthy(ms).None? <==> forall j :: 0 <= j < |ms| ==> !Truthy(ms[j])
  {
    if ms != [] && !Truthy(ms[0]) {
      FirstTruthyIsFirst(ms[1..]);
      if FirstTruthy(ms[1..]).Some? {
        var i :| 0 <= i < |ms[1..]| && ms[1..][i] == FirstTruthy(ms[1..]) && forall j :: 0 <= j < i ==> !Truthy(ms[1..][j]);
        assert ms[i + 1] == FirstTruthy(ms);
        forall j | 0 <= j < i + 1 ensures !Truthy(ms[j]) {
          if j > 0 { assert ms[j] == ms[1..][j - 1]; }
        }
      }
      forall j | 0 <= j < |ms| && FirstTruthy(ms).None? ensures !Truthy(ms[j]) {
        if j > 0 { assert ms[j] == ms[1..][j - 1]; }
      }
    }
  }
}
