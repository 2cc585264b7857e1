/**
 * What the route handlers see of a request and what they send back: the
 * JSON body, the identity the auth middleware attached, the express-validator
 * "required field" chain and the replies.
 */
module Http {
  import opened Wrappers
  import opened ProfileSchema

  /** `req.body` with string-valued fields; a key that is not in the map is `undefined`. */
  type RequestBody = map<string, string>

  /** `req.user`, the identity a verified token carries. */
  datatype Identity = Identity(id: UserId)

  /** A JavaScript string field is truthy when it is defined and not empty. */
  predicate Truthy(body: RequestBody, key: string) {
    key in body && body[key] != ""
  }

  /** The value a destructuring `const { key } = req.body` yields, copied as received. */
  function Field(body: RequestBody, key: string): Option<string> {
    Lookup(body, key)
  }

  /** The string a validator checks: the field, or `''` when it is undefined. */
  function Checked(body: RequestBody, key: string): string {
    if key in body then body[key] else ""
  }

  /** One entry of `validationResult(req).array()`. */
  datatype FieldError = FieldError(param: string, msg: string)

  /** `check(param, msg).not().isEmpty()` */
  datatype Required = Required(param: string, msg: string)

  /** The errors of a list of required-field checks, in the order the checks are declared. */
  function RequiredErrors(body: RequestBody, rules: seq<Required>): (r: seq<FieldError>)
    ensures |r| <= |rules|
    ensures forall i :: 0 <= i < |r| ==> Required(r[i].param, r[i].msg) in rules && !Truthy(body, r[i].param)
    ensures forall i :: 0 <= i < |rules| && !Truthy(body, rules[i].param) ==>
      FieldError(rules[i].param, rules[i].msg) in r
    ensures r == [] <==> forall i :: 0 <= i < |rules| ==> Truthy(body, rules[i].param)
    ensures |rules| == 1 ==>
      r == (if Truthy(body, rules[0].param) then [] else [FieldError(rules[0].param, rules[0].msg)])
  {
    if rules == [] then []
    else
      var rest := RequiredErrors(body, rules[1..]);
      assert forall i :: 1 <= i < |rules| ==> rules[i] == rules[1..][i - 1];
      if Truthy(body, rules[0].param) then rest
      else [FieldError(rules[0].param, rules[0].msg)] + rest
  }

  /**
   * The checks run one after the other: the errors of two lists of checks
   * are the errors of the first list followed by those of the second. With
   * the one-check case above this fixes the errors of any list: one entry
   * per failed check, in declaration order.
   */
  lemma {:induction false} RequiredErrorsAppend(body: RequestBody, a: seq<Required>, b: seq<Required>)
    ensures RequiredErrors(body, a + b) == RequiredErrors(body, a) + RequiredErrors(body, b)
  {
    if a == [] {
      assert a + b == b;
    } else {
      assert (a + b)[0] == a[0];
      assert (a + b)[1..] == a[1..] + b;
      RequiredErrorsAppend(body, a[1..], b);
    }
  }

  datatype Content =
    | Msg(msg: string)                  // res.json({ msg })
    | Errors(errors: seq<FieldError>)   // res.json({ errors: errors.array() })
    | Doc(profile: Profile)             // res.json(profile)
    | Text(text: string)                // res.send(text)

  /** The status code and the body of the one response a request gets. */
  datatype Reply = Reply(status: nat, content: Content)

  /** The reply of the `catch` blocks: `res.status(500).send('Server error')`. */
  const ServerError := Reply(500, Text("Server error"))
}
