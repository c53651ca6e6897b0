/** The page a recovery link lands on: a new password, typed twice, sent to
    `auth.updateUser`. */
module ResetPassword {
  import opened Wrappers
  import opened Js
  import opened Backend
  import opened Forms

  datatype Values = Values(password: string, confirmPassword: string)

  const LengthMessage: string := "Password must be at least 6 characters."
  const MatchMessage: string := "Passwords don't match"

  /** Six UTF-16 units, and the two fields equal. */
  predicate Accepted(v: Values) {
    Utf16Length(v.password) >= 6 && v.password == v.confirmPassword
  }

  /** The schema's issues. A too-short password does not stop the object's
      refinement, so a short password that also differs from its
      confirmation yields both messages. */
  function Issues(v: Values): (r: seq<Issue>)
    ensures Paths(r) <= {"password", "confirmPassword"}
    ensures "password" in Paths(r) <==> Utf16Length(v.password) < 6
    ensures "confirmPassword" in Paths(r) <==> v.password != v.confirmPassword
    ensures Utf16Length(v.password) < 6 ==> Issue("password", LengthMessage) in r
    ensures v.password != v.confirmPassword ==> Issue("confirmPassword", MatchMessage) in r
    ensures r == [] <==> Accepted(v)
  {
    var length := if Utf16Length(v.password) < 6 then [Issue("password", LengthMessage)] else [];
    var agree := if v.password != v.confirmPassword then [Issue("confirmPassword", MatchMessage)] else [];
    assert Paths(length + agree) == Paths(length) + Paths(agree);
    length + agree
  }

  class Component {
    var values: Values
    var errors: seq<Issue>
    var isSubmitting: bool

    constructor ()
      ensures values == Values("", "") && errors == [] && !isSubmitting
    {
      values := Values("", "");
      errors := [];
      isSubmitting := false;
    }

    /** `form.handleSubmit(onSubmit)`: an invalid form sends nothing; a
        valid one sends the new password, goes to the home page when the
        update succeeds, stays otherwise, and is no longer submitting
        either way. */
    method Submit(reply: Outcome) returns (sent: Option<string>, navigate: Option<string>)
      modifies this
      ensures values == old(values) && errors == Issues(old(values))
      ensures !Accepted(values) ==> sent == None && navigate == None && isSubmitting == old(isSubmitting)
      ensures Accepted(values) ==> sent == Some(values.password) && !isSubmitting
      ensures Accepted(values) ==> (navigate == Some("/") <==> reply.Pass?)
      ensures Accepted(values) && reply.Fail? ==> navigate == None
    {
      errors := Issues(values);
      sent, navigate := None, None;
      if errors != [] {
        return;
      }
      sent := Some(values.password);
      if reply.Pass? {
        navigate := Some("/");
      }
      isSubmitting := false;
    }
  }
}
