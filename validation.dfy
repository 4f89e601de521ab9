/**
 * The contact form's fields and its field validator (`validateForm` without
 * its final `setErrors`, which the `Contact` module models as a state change).
 */
module Validation {
  import opened JsString
  import opened EmailRegex

  datatype Option<T> = None | Some(value: T)

  /** The three inputs of the form, by their `name` attribute. */
  datatype Field = Name | Email | Message

  /** The `form` state: one string per input. */
  datatype FormState = FormState(name: string, email: string, message: string) {

    function Get(f: Field): string {
      match f
      case Name => name
      case Email => email
      case Message => message
    }

    /** `{ ...form, [f]: v }` */
    function With(f: Field, v: string): (r: FormState)
      ensures r.Get(f) == v
      ensures forall g :: g != f ==> r.Get(g) == Get(g)
    {
      match f
      case Name => this.(name := v)
      case Email => this.(email := v)
      case Message => this.(message := v)
    }
  }

  const EmptyForm := FormState("", "", "")

  /** The `errors` object: a key that is absent reads as `undefined`, and
      `None` is the `null` that `handleChange` writes. */
  type Errors = map<Field, Option<string>>

  /** `errors[f]` is truthy: present, not null, not the empty string. */
  predicate Truthy(errors: Errors, f: Field) {
    f in errors && errors[f].Some? && errors[f].value != ""
  }

  const NameRequired := "Your name is required."
  const EmailRequired := "Your email is required."
  const EmailInvalid := "Please enter a valid email address."
  const MessageRequired := "A message is required."

  /** All three field checks pass. */
  ghost predicate Acceptable(form: FormState) {
    !AllWhitespace(form.name) && Matches(form.email) && !AllWhitespace(form.message)
  }

  /** The error map `validateForm` builds from scratch: an entry per failing
      field with that field's message, and nothing else. It is empty exactly
      when every check passes. */
  function Validate(form: FormState): (r: Errors)
    ensures Name in r <==> AllWhitespace(form.name)
    ensures Name in r ==> r[Name] == Some(NameRequired)
    ensures AllWhitespace(form.email) ==> Email in r && r[Email] == Some(EmailRequired)
    ensures !AllWhitespace(form.email) && !Matches(form.email) ==>
              Email in r && r[Email] == Some(EmailInvalid)
    ensures Matches(form.email) ==> Email !in r
    ensures Message in r <==> AllWhitespace(form.message)
    ensures Message in r ==> r[Message] == Some(MessageRequired)
    ensures forall f :: f in r ==> Truthy(r, f)
    ensures r == map[] <==> Acceptable(form)
  {
    TestIsSearch(form.email);
    assert Matches(form.email) ==> !AllWhitespace(form.email) by {
      if Matches(form.email) { MatchesIsNotBlank(form.email); }
    }
    var afterName: Errors :=
      if IsBlank(form.name) then map[Name := Some(NameRequired)] else map[];
    var afterEmail :=
      if IsBlank(form.email) then afterName[Email := Some(EmailRequired)]
      else if !Test(form.email) then afterName[Email := Some(EmailInvalid)]
      else afterName;
    var r :=
      if IsBlank(form.message) then afterEmail[Message := Some(MessageRequired)]
      else afterEmail;
    assert forall f :: f in r ==> Truthy(r, f) by {
      forall f | f in r ensures Truthy(r, f) {
        if f == Name {
          assert r[f] == Some(NameRequired);
        } else if f == Email {
          assert r[f] == Some(EmailRequired) || r[f] == Some(EmailInvalid);
        } else {
          assert r[f] == Some(MessageRequired);
        }
      }
    }
    r
  }

  // The scenario lemmas below take the form as a parameter pinned by
  // `requires` rather than writing the literal into `Validate(...)`: a literal
  // argument makes the verifier unfold `Trim` and `Test` on it far more deeply.

  /** `{ name: "", email: "a@b.com", message: "hi" }` fails on the name alone. */
  lemma MissingNameOnly(form: FormState)
    requires form == FormState("", "a@b.com", "hi")
    ensures Validate(form) == map[Name := Some(NameRequired)]
  {
    assert MatchAt(form.email, 0, 1, 3, 7);
    assert !IsWhitespace(form.message[0]);
    var r := Validate(form);
    assert r.Keys == {Name};
  }

  /** `{ name: "A", email: "not-an-email", message: "hi" }` fails on the email
      pattern alone. */
  lemma InvalidEmailOnly(form: FormState)
    requires form == FormState("A", "not-an-email", "hi")
    ensures Validate(form) == map[Email := Some(EmailInvalid)]
  {
    NoAtNoMatch(form.email);
    assert !IsWhitespace(form.name[0]);
    assert !IsWhitespace(form.email[0]);
    assert !IsWhitespace(form.message[0]);
    var r := Validate(form);
    assert r.Keys == {Email};
  }

  /** `{ name: "A", email: "a@b.com", message: "hi" }` passes. */
  lemma WellFormedAccepted(form: FormState)
    requires form == FormState("A", "a@b.com", "hi")
    ensures Validate(form) == map[]
  {
    assert MatchAt(form.email, 0, 1, 3, 7);
    assert !IsWhitespace(form.name[0]);
    assert !IsWhitespace(form.message[0]);
  }

  /** A form whose fields are all blank, such as the emptied form, fails
      every check. */
  lemma BlankFormRejected(form: FormState)
    requires AllWhitespace(form.name) && AllWhitespace(form.email) && AllWhitespace(form.message)
    ensures Validate(form) ==
      map[Name := Some(NameRequired), Email := Some(EmailRequired), Message := Some(MessageRequired)]
  {
    var r := Validate(form);
    assert r.Keys == {Name, Email, Message};
  }
}
