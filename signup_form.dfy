/** The registration form: routing of the server's validation errors to the
    email and password fields, and the submit handler's state updates.
    The `errors` record is given as its entries in the order
    `Object.entries` yields them. */
module SignupForm {
  import opened Wrappers
  import opened Text

  const GenericFailureMessage: string := "Registration failed. Please try again."

  type FieldErrors = seq<(string, seq<string>)>

  datatype Field = EmailField | PasswordField

  /** `fieldPatterns`. */
  function Patterns(f: Field): seq<string> {
    match f
    case EmailField => ["email", "username", "user"]
    case PasswordField => ["password"]
  }

  /** `patterns.some(pattern => lowerKey.includes(pattern))`. */
  predicate SomeIncluded(lowerKey: string, patterns: seq<string>)
    ensures SomeIncluded(lowerKey, patterns) <==> exists i :: 0 <= i < |patterns| && Includes(lowerKey, patterns[i])
  {
    if patterns == [] then false else Includes(lowerKey, patterns[0]) || SomeIncluded(lowerKey, patterns[1..])
  }

  /** A key is routed to a field when its lower-case form contains one of
      the field's patterns. */
  predicate KeyMatches(key: string, f: Field)
    ensures KeyMatches(key, f) <==> exists i :: 0 <= i < |Patterns(f)| && Includes(ToLower(key), Patterns(f)[i])
  {
    SomeIncluded(ToLower(key), Patterns(f))
  }

  /** `getFieldErrors(field)`: the messages of the matching entries, in entry
      order, flattened. */
  function GetFieldErrors(entries: FieldErrors, f: Field): (r: seq<string>)
    ensures (forall i :: 0 <= i < |entries| ==> !KeyMatches(entries[i].0, f)) ==> r == []
    ensures (forall i :: 0 <= i < |entries| ==> KeyMatches(entries[i].0, f) ==> entries[i].1 == []) ==> r == []
  {
    if entries == [] then []
    else (if KeyMatches(entries[0].0, f) then entries[0].1 else []) + GetFieldErrors(entries[1..], f)
  }

  /** The password field takes exactly the keys containing "password"; the
      email field those containing "email" or "user" (the "username" pattern
      adds nothing, since any key containing it contains "user"). */
  lemma MatchingKeys(key: string)
    ensures KeyMatches(key, PasswordField) <==> Includes(ToLower(key), "password")
    ensures KeyMatches(key, EmailField) <==> Includes(ToLower(key), "email") || Includes(ToLower(key), "user")
  {
    var k := ToLower(key);
    var ps := Patterns(PasswordField);
    assert ps[1..] == [];
    assert SomeIncluded(k, ps) == Includes(k, "password");
    var es := Patterns(EmailField);
    assert es[0] == "email" && es[1..] == ["username", "user"];
    assert es[1..][0] == "username" && es[1..][1..] == ["user"];
    assert es[1..][1..][0] == "user" && es[1..][1..][1..] == [];
    assert SomeIncluded(k, es[1..][1..]) == Includes(k, "user");
    assert SomeIncluded(k, es[1..]) == (Includes(k, "username") || Includes(k, "user"));
    assert SomeIncluded(k, es) == (Includes(k, "email") || Includes(k, "username") || Includes(k, "user"));
    if Includes(k, "username") {
      assert StartsWith("username", "user");
      IncludesPrefixOfFound(k, "username", "user");
    }
  }

  /** Routing works entry by entry: the errors of a concatenation are the
      errors of its parts, concatenated, so entry order is kept. */
  lemma {:induction false} GetFieldErrorsAppend(a: FieldErrors, b: FieldErrors, f: Field)
    ensures GetFieldErrors(a + b, f) == GetFieldErrors(a, f) + GetFieldErrors(b, f)
    decreases |a|
  {
    if a == [] {
      assert a + b == b;
    } else {
      assert (a + b)[0] == a[0] && (a + b)[1..] == a[1..] + b;
      GetFieldErrorsAppend(a[1..], b, f);
    }
  }

  /** One entry contributes all its messages to a field whose pattern it
      matches and none otherwise: a key matching neither field shows
      nowhere, a key matching both shows under both. */
  lemma SingleEntry(key: string, messages: seq<string>, f: Field)
    ensures GetFieldErrors([(key, messages)], f) == if KeyMatches(key, f) then messages else []
  {
    assert [(key, messages)][1..] == [];
  }

  /** Every routed message comes from an entry whose key matches the field. */
  lemma {:induction false} RoutedMessagesComeFromMatchingKeys(entries: FieldErrors, f: Field, m: string)
    requires m in GetFieldErrors(entries, f)
    ensures exists i :: 0 <= i < |entries| && KeyMatches(entries[i].0, f) && m in entries[i].1
    decreases |entries|
  {
    if m in (if KeyMatches(entries[0].0, f) then entries[0].1 else []) {
      assert KeyMatches(entries[0].0, f) && m in entries[0].1;
    } else {
      RoutedMessagesComeFromMatchingKeys(entries[1..], f, m);
      var i :| 0 <= i < |entries[1..]| && KeyMatches(entries[1..][i].0, f) && m in entries[1..][i].1;
      assert entries[i + 1] == entries[1..][i];
    }
  }

  /** How the registration call failed: the problem details' `errors`
      record when present, and its `detail`. */
  datatype RegisterOutcome = Registered | RegisterFailed(errors: Option<FieldErrors>, detail: Option<string>)

  /** The body of `POST /api/auth/register`. */
  datatype RegisterRequest = RegisterRequest(email: string, password: string)

  datatype FailureDisplay = FieldLevel(errors: FieldErrors) | FormLevel(message: string)

  /** The catch branch: an `errors` record (even an empty one) wins over a
      non-empty `detail`, which wins over the generic message. */
  function DisplayFailure(errors: Option<FieldErrors>, detail: Option<string>): (r: FailureDisplay)
    ensures r.FieldLevel? <==> errors.Some?
    ensures r.FieldLevel? ==> r.errors == errors.value
    ensures r.FormLevel? && detail.Some? && detail.value != "" ==> r.message == detail.value
    ensures r.FormLevel? && (detail.None? || detail.value == "") ==> r.message == GenericFailureMessage
  {
    if errors.Some? then FieldLevel(errors.value)
    else if detail.Some? && detail.value != "" then FormLevel(detail.value)
    else FormLevel(GenericFailureMessage)
  }

  class SignupForm {
    var error: Option<string>
    var fieldErrors: FieldErrors
    var success: bool

    constructor ()
      ensures error.None? && fieldErrors == [] && !success
    {
      error, fieldErrors, success := None, [], false;
    }

    /** `handleSubmit`, with the form's email and password and the
        registration outcome as inputs; returns the body posted to the
        register endpoint. The previous errors are cleared first, and success
        is set only when registration succeeded. */
    method HandleSubmit(email: string, password: string, outcome: RegisterOutcome) returns (body: RegisterRequest)
      modifies this
      ensures body == RegisterRequest(email, password)
      ensures success == (old(success) || outcome.Registered?)
      ensures outcome.Registered? ==> error.None? && fieldErrors == []
      ensures outcome.RegisterFailed? ==>
        match DisplayFailure(outcome.errors, outcome.detail)
        case FieldLevel(errs) => fieldErrors == errs && error.None?
        case FormLevel(message) => fieldErrors == [] && error == Some(message)
    {
      error := None;
      fieldErrors := [];
      body := RegisterRequest(email, password);
      match outcome {
        case Registered =>
          success := true;
        case RegisterFailed(errors, detail) =>
          match DisplayFailure(errors, detail) {
            case FieldLevel(errs) => fieldErrors := errs;
            case FormLevel(message) => error := Some(message);
          }
      }
    }

    /** `getFieldErrors` on the form's current state. */
    function Errors(f: Field): seq<string>
      reads this
    {
      GetFieldErrors(fieldErrors, f)
    }
  }
}
