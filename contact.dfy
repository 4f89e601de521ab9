/**
 * The contact-form controller: its four pieces of state, the transitions
 * `handleChange` and `handleSubmit` make on them, and a class that holds the
 * state and performs those transitions in place.
 */
module Contact {
  import opened Validation

  /** `submissionStatus`: null, "success" or "error". */
  datatype Status = Unset | Success | Error

  /** How the remote send settles: the promise resolves or it rejects. */
  datatype Outcome = Delivered | Failed

  /** The template parameters handed to the email relay with each send. */
  datatype Payload = Payload(
    fromName: string, toName: string, fromEmail: string,
    email: string, toEmail: string, message: string)

  const RecipientName := "Gursewak singh"
  const RecipientEmail := "gursewak00singh11@gmail.com"

  function PayloadOf(form: FormState): Payload {
    Payload(form.name, RecipientName, form.email, form.email, RecipientEmail, form.message)
  }

  /** `form`, `errors`, `loading` and `submissionStatus` together. */
  datatype State = State(form: FormState, errors: Errors, loading: bool, status: Status)

  /** What the component starts with. */
  const Initial := State(EmptyForm, map[], false, Unset)

  /** A new state and the requests sent to the relay on the way to it, in
      the order they were sent. */
  datatype Transition = Transition(state: State, sends: seq<Payload>)

  /** `handleChange` for the input named `f` receiving `v`: the field is
      overwritten, its error (if truthy) becomes null without its key being
      removed, every other error is kept and the status is reset. */
  function Change(s: State, f: Field, v: string): (r: State)
    ensures r.form.Get(f) == v
    ensures forall g :: g != f ==> r.form.Get(g) == s.form.Get(g)
    ensures r.loading == s.loading && r.status == Unset
    ensures r.errors.Keys == s.errors.Keys
    ensures !Truthy(r.errors, f)
    ensures Truthy(s.errors, f) ==> r.errors[f] == None
    ensures !Truthy(s.errors, f) ==> r.errors == s.errors
    ensures forall g :: g in r.errors && g != f ==> r.errors[g] == s.errors[g]
  {
    State(
      s.form.With(f, v),
      if Truthy(s.errors, f) then s.errors[f := None] else s.errors,
      s.loading,
      Unset)
  }

  /** `handleSubmit` up to its `await`: the error map is rebuilt from the
      form; if it is not empty the status becomes "error" and nothing is sent,
      otherwise `loading` is raised, the status is cleared and exactly one
      request carrying the form goes out. */
  function BeginSubmit(s: State): (t: Transition)
    ensures t.state.form == s.form
    ensures t.state.errors == Validate(s.form)
    ensures |t.sends| <= 1
    ensures t.sends != [] <==> Acceptable(s.form)
    ensures t.sends == [] ==> t.state.status == Error && t.state.loading == s.loading
    ensures t.sends != [] ==> t.state.loading && t.state.status == Unset
    ensures forall p :: p in t.sends ==> p == PayloadOf(s.form)
  {
    var errors := Validate(s.form);
    if errors != map[] then
      Transition(s.(errors := errors, status := Error), [])
    else
      Transition(s.(errors := errors, loading := true, status := Unset), [PayloadOf(s.form)])
  }

  /** `handleSubmit` after the send settles: `loading` drops; a delivery
      reports success and empties the form, a failure reports an error and
      keeps the form for another attempt. */
  function CompleteSubmit(s: State, outcome: Outcome): (r: State)
    ensures !r.loading && r.errors == s.errors
    ensures outcome == Delivered ==> r.status == Success && r.form == EmptyForm
    ensures outcome == Failed ==> r.status == Error && r.form == s.form
  {
    match outcome
    case Delivered => s.(loading := false, status := Success, form := EmptyForm)
    case Failed => s.(loading := false, status := Error)
  }

  /** The whole of `handleSubmit` as one sequential step, the send settling
      with `outcome`. */
  function Submit(s: State, outcome: Outcome): (t: Transition)
    ensures t.state.errors == Validate(s.form)
    ensures !Acceptable(s.form) ==>
              && t.sends == [] && t.state.status == Error
              && t.state.form == s.form && t.state.loading == s.loading
    ensures Acceptable(s.form) ==>
              && |t.sends| == 1 && !t.state.loading
              && t.sends[0] == Payload(s.form.name, RecipientName, s.form.email,
                                       s.form.email, RecipientEmail, s.form.message)
    ensures Acceptable(s.form) && outcome == Delivered ==>
              t.state.status == Success && t.state.form == EmptyForm
    ensures Acceptable(s.form) && outcome == Failed ==>
              t.state.status == Error && t.state.form == s.form
  {
    var begun := BeginSubmit(s);
    if begun.sends == [] then begun
    else Transition(CompleteSubmit(begun.state, outcome), begun.sends)
  }

  /** Making the same edit twice leaves the same state as making it once. */
  lemma ChangeIdempotent(s: State, f: Field, v: string)
    ensures Change(Change(s, f, v), f, v) == Change(s, f, v)
  {
    var once := Change(s, f, v);
    assert once.form.With(f, v) == once.form by {
      assert forall g :: once.form.With(f, v).Get(g) == once.form.Get(g);
    }
  }

  /** After a failed send the form is kept, so submitting again sends the
      very same request. */
  lemma RetryAfterFailure(s: State, outcome: Outcome)
    requires Acceptable(s.form)
    ensures Submit(Submit(s, Failed).state, outcome).sends == Submit(s, Failed).sends
  {
  }

  /** After a delivered send the form is empty, so submitting again without
      editing sends nothing and reports an error. */
  lemma NoResendAfterSuccess(s: State, outcome: Outcome)
    ensures Submit(Submit(s, Delivered).state, outcome).sends == []
    ensures Submit(Submit(s, Delivered).state, outcome).state.status == Error
  {
    if Acceptable(s.form) {
      BlankFormRejected(EmptyForm);
    }
  }

  /** `{ name: "A", email: "a@b.com", message: "hi" }` delivered: one request
      with those values, then an empty form and the success status. The form
      is a parameter pinned by `requires`, as in `Validation.WellFormedAccepted`,
      to keep the verifier from unfolding `Submit` on a literal. */
  lemma DeliveredScenario(s: State)
    requires s.form == FormState("A", "a@b.com", "hi")
    ensures Submit(s, Delivered) == Transition(
              State(EmptyForm, map[], false, Success),
              [Payload("A", RecipientName, "a@b.com", "a@b.com", RecipientEmail, "hi")])
  {
    WellFormedAccepted(s.form);
  }

  /** The component instance: the four `useState` cells as fields. */
  class ContactForm {
    var form: FormState
    var errors: Errors
    var loading: bool
    var status: Status

    function Snapshot(): State
      reads this
    {
      State(form, errors, loading, status)
    }

    constructor ()
      ensures Snapshot() == Initial
    {
      form := EmptyForm;
      errors := map[];
      loading := false;
      status := Unset;
    }

    /** `validateForm`: replaces the error map with the one built from the
        form and reports whether it is empty; nothing else changes. */
    method ValidateForm() returns (valid: bool)
      modifies this`errors
      ensures errors == Validate(form)
      ensures valid <==> errors == map[]
      ensures valid <==> Acceptable(form)
    {
      var newErrors := Validate(form);
      errors := newErrors;
      valid := newErrors == map[];  // `Object.keys(newErrors).length === 0`
    }

    /** `handleChange` for the input named `f` receiving `v`. */
    method HandleChange(f: Field, v: string)
      modifies this
      ensures Snapshot() == Change(old(Snapshot()), f, v)
    {
      form := form.With(f, v);
      if Truthy(errors, f) {
        errors := errors[f := None];
      }
      status := Unset;
    }

    /** `handleSubmit` up to its `await`; `sends` holds the request issued,
        if any. */
    method StartSubmit() returns (sends: seq<Payload>)
      modifies this
      ensures BeginSubmit(old(Snapshot())) == Transition(Snapshot(), sends)
    {
      ghost var before := Snapshot();
      var valid := ValidateForm();
      assert form == before.form && errors == Validate(before.form);
      if !valid {
        status := Error;
        sends := [];
        assert BeginSubmit(before).state == Snapshot();
        return;
      }
      loading := true;
      status := Unset;
      sends := [PayloadOf(form)];
      assert BeginSubmit(before).state == Snapshot();
    }

    /** The continuation of `handleSubmit` once the send has settled. */
    method FinishSubmit(outcome: Outcome)
      modifies this
      ensures Snapshot() == CompleteSubmit(old(Snapshot()), outcome)
    {
      loading := false;
      match outcome {
        case Delivered =>
          status := Success;
          form := EmptyForm;
        case Failed =>
          status := Error;
      }
    }

    /** `handleSubmit` run to completion, the send settling with `outcome`. */
    method HandleSubmit(outcome: Outcome) returns (sends: seq<Payload>)
      modifies this
      ensures Submit(old(Snapshot()), outcome) == Transition(Snapshot(), sends)
    {
      sends := StartSubmit();
      if sends != [] {
        FinishSubmit(outcome);
      }
    }
  }
}
