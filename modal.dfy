/** The four state cells of the XModal component and the handlers that update
    them: open, close, change of one input, submit, and a mouse-down anywhere
    in the document. `Step` is the transition function of the same handlers on
    a state value; the class below keeps the cells as mutable fields. */
module Modal {
  import opened Validation

  /** `isOpen`, `formData`, `errors` and `submitted`. */
  datatype ModalState = ModalState(
    isOpen: bool,
    formData: FormData,
    errors: map<Field, string>,
    submitted: bool)

  /** The state the component is mounted with. */
  const Initial: ModalState := ModalState(false, EmptyForm, map[], false)

  /** The handler calls. `OutsideClick(outside)` is a mouse-down whose target
      lies outside the modal content exactly when `outside` holds. The
      component renders no close control: in the program `CloseModal` is
      reached only through `OutsideClick`, so runs that use it on its own are
      a superset of the program's runs. */
  datatype Event =
    | OpenModal
    | CloseModal
    | Change(field: Field, value: string)
    | Submit(host: Host)
    | OutsideClick(outside: bool)

  /** Every cell except `isOpen` holds its initial value. */
  predicate IsReset(s: ModalState) {
    s.formData == EmptyForm && s.errors == map[] && !s.submitted
  }

  /** A closed modal holds nothing over from its last use. */
  predicate ClosedIsReset(s: ModalState) {
    !s.isOpen ==> IsReset(s)
  }

  /** The inputs and the submit button are rendered only while the modal is
      open, so those two events can only happen then. */
  predicate Enabled(s: ModalState, ev: Event) {
    match ev
    case Change(_, _) => s.isOpen
    case Submit(_) => s.isOpen
    case _ => true
  }

  /** One handler run on the current state. Closing writes back exactly the
      initial values, so a closed modal is `Initial`. */
  function Step(s: ModalState, ev: Event): (t: ModalState)
    // only opening opens the modal
    ensures t.isOpen && !s.isOpen ==> ev.OpenModal?
    // the form changes only by an input change or by the full reset
    ensures t.formData == s.formData || ev.Change? || t == Initial
    // the errors change only by a failing submit or by the full reset
    ensures t.errors == s.errors || t == Initial
      || (ev.Submit? && t.errors == Validate(s.formData, ev.host) && t.errors != map[])
    // the form becomes submitted only by a submit that found no errors
    ensures t.submitted && !s.submitted ==> ev.Submit? && Validate(s.formData, ev.host) == map[]
  {
    match ev
    case OpenModal => s.(isOpen := true)
    case CloseModal => Initial
    case Change(f, v) => s.(formData := With(s.formData, f, v))
    case Submit(h) =>
      var newErrors := Validate(s.formData, h);
      if |newErrors| == 0 then s.(submitted := true) else s.(errors := newErrors)
    case OutsideClick(outside) =>
      if s.isOpen && outside then
        if !s.submitted then Initial else s.(submitted := false)
      else s
  }

  /** The state after a sequence of events. */
  function Run(s: ModalState, evs: seq<Event>): (t: ModalState)
    decreases |evs|
  {
    if evs == [] then s else Run(Step(s, evs[0]), evs[1..])
  }

  /** Every event of the sequence is enabled in the state it happens in. */
  predicate AllEnabled(s: ModalState, evs: seq<Event>)
    decreases |evs|
  {
    evs == [] || (Enabled(s, evs[0]) && AllEnabled(Step(s, evs[0]), evs[1..]))
  }

  /** An enabled event keeps a closed modal free of leftovers. */
  lemma StepKeepsClosedIsReset(s: ModalState, ev: Event)
    requires ClosedIsReset(s) && Enabled(s, ev)
    ensures ClosedIsReset(Step(s, ev))
  {
  }

  /** Along any sequence of enabled events, closed implies reset. */
  lemma {:induction false} RunKeepsClosedIsReset(s: ModalState, evs: seq<Event>)
    requires ClosedIsReset(s) && AllEnabled(s, evs)
    ensures ClosedIsReset(Run(s, evs))
    decreases |evs|
  {
    if evs != [] {
      StepKeepsClosedIsReset(s, evs[0]);
      RunKeepsClosedIsReset(Step(s, evs[0]), evs[1..]);
    }
  }

  /** Opening the modal after any history of enabled events shows an empty
      form with no errors and no submitted mark, unless it was open already. */
  lemma ReopenStartsEmpty(evs: seq<Event>)
    requires AllEnabled(Initial, evs)
    ensures !Run(Initial, evs).isOpen ==>
      Step(Run(Initial, evs), OpenModal) == ModalState(true, EmptyForm, map[], false)
  {
    RunKeepsClosedIsReset(Initial, evs);
  }

  /** Without the guard the invariant fails: a change delivered to a closed
      modal leaves a closed modal with a non-empty form. */
  lemma ChangeWhileClosedBreaksReset()
    ensures !ClosedIsReset(Step(Initial, Change(Username, "x")))
  {
  }

  /** A host that treats every string as a number and no date as future. */
  function PermissiveHost(): (h: Host)
    ensures DigitsAreNumeric(h)
  {
    Host(s => true, s => false)
  }

  /** The states of the run in `StaleErrorsAfterSuccessfulSubmit`, one step
      at a time. */
  lemma StaleErrorsSteps(h: Host)
    requires DigitsAreNumeric(h) && !h.isFuture("2000-01-01")
    ensures var t := Step(Step(Step(Step(Step(Step(Step(Initial, OpenModal), Submit(h)),
        Change(Username, "alice")), Change(Email, "a@b.com")),
        Change(Phone, "1234567890")), Change(Dob, "2000-01-01")), Submit(h));
      t.isOpen && t.submitted && |t.errors| == 4
      && t.errors == Validate(EmptyForm, h) && Validate(t.formData, h) == map[]
  {
    var s1 := Step(Initial, OpenModal);
    var e1 := Validate(s1.formData, h);
    assert e1.Keys == {Username, Email, Phone, Dob};
    var s2 := Step(s1, Submit(h));
    assert s2.errors == e1 && !s2.submitted;
    var s6 := Step(Step(Step(Step(s2, Change(Username, "alice")), Change(Email, "a@b.com")),
        Change(Phone, "1234567890")), Change(Dob, "2000-01-01"));
    assert s6.formData == FormData("alice", "a@b.com", "1234567890", "2000-01-01");
    assert s6.errors == e1 && s6.isOpen;
    SampleRecordIsValid(h);
    assert Step(s6, Submit(h)).formData == s6.formData;
  }

  /** Errors outlive a successful submit: submit an empty form, fill it in,
      submit again, and the modal is both submitted and still shows the four
      messages of the first attempt. */
  lemma StaleErrorsAfterSuccessfulSubmit()
    ensures var t := Run(Initial, [
        OpenModal, Submit(PermissiveHost()),
        Change(Username, "alice"), Change(Email, "a@b.com"),
        Change(Phone, "1234567890"), Change(Dob, "2000-01-01"),
        Submit(PermissiveHost())]);
      t.isOpen && t.submitted && |t.errors| == 4
      && t.errors == Validate(EmptyForm, PermissiveHost())
      && Validate(t.formData, PermissiveHost()) == map[]
  {
    var h := PermissiveHost();
    var evs := [OpenModal, Submit(h), Change(Username, "alice"), Change(Email, "a@b.com"),
                Change(Phone, "1234567890"), Change(Dob, "2000-01-01"), Submit(h)];
    assert Run(Initial, evs) == Run(Step(Initial, evs[0]), evs[1..]);
    assert evs[6..][1..] == [];
    StaleErrorsSteps(h);
  }

  /** The component's state cells, updated in place by its handlers. */
  class XModal {
    var isOpen: bool
    var formData: FormData
    var errors: map<Field, string>
    var submitted: bool

    function State(): (st: ModalState)
      reads this
    {
      ModalState(isOpen, formData, errors, submitted)
    }

    /** `useState` initial values. */
    constructor ()
      ensures State() == Initial
    {
      isOpen := false;
      formData := EmptyForm;
      errors := map[];
      submitted := false;
    }

    /** `handleOpenModal`: only `isOpen` changes. */
    method HandleOpenModal()
      modifies this
      ensures isOpen
      ensures formData == old(formData) && errors == old(errors) && submitted == old(submitted)
      ensures State() == Step(old(State()), OpenModal)
    {
      isOpen := true;
    }

    /** `handleCloseModal`: closed, fields emptied, errors cleared, not submitted. */
    method HandleCloseModal()
      modifies this
      ensures !isOpen && formData == EmptyForm && errors == map[] && !submitted
      ensures State() == Step(old(State()), CloseModal)
    {
      isOpen := false;
      formData := EmptyForm;
      errors := map[];
      submitted := false;
    }

    /** `handleChange` for the input with id `f` and new text `v`. */
    method HandleChange(f: Field, v: string)
      modifies this
      ensures Get(formData, f) == v
      ensures forall g :: g != f ==> Get(formData, g) == Get(old(formData), g)
      ensures isOpen == old(isOpen) && errors == old(errors) && submitted == old(submitted)
      ensures State() == Step(old(State()), Change(f, v))
    {
      formData := With(formData, f, v);
    }

    /** `handleSubmit`: validate the current fields; mark the form submitted
        when nothing failed, otherwise publish the new errors. */
    method HandleSubmit(h: Host)
      modifies this
      ensures isOpen == old(isOpen) && formData == old(formData)
      ensures Validate(old(formData), h) == map[] ==>
        submitted && errors == old(errors)
      ensures Validate(old(formData), h) != map[] ==>
        errors == Validate(old(formData), h) && submitted == old(submitted)
      ensures State() == Step(old(State()), Submit(h))
    {
      var newErrors := Validate(formData, h);
      if |newErrors| == 0 {
        submitted := true;
      } else {
        errors := newErrors;
      }
    }

    /** The mouse-down listener; `outside` is whether the target lies outside
        the modal content. The content element exists only while open. */
    method HandleOutsideClick(outside: bool)
      modifies this
      ensures old(isOpen) && outside && !old(submitted) ==>
        !isOpen && formData == EmptyForm && errors == map[] && !submitted
      ensures old(isOpen) && outside && old(submitted) ==>
        isOpen && !submitted && formData == old(formData) && errors == old(errors)
      ensures !(old(isOpen) && outside) ==> unchanged(this)
      ensures State() == Step(old(State()), OutsideClick(outside))
    {
      if isOpen && outside {
        if !submitted {
          HandleCloseModal();
        } else {
          submitted := false;
        }
      }
    }
  }
}
