/** The contact section's form: three text fields and a status that goes
    idle → sending → sent or error → idle, the last step on a 4000 ms timer. */
module CallToAction {
  import opened Common

  datatype Status = Idle | Sending | Sent | Error

  datatype ContactForm = ContactForm(name: string, email: string, message: string)

  const EmptyForm: ContactForm := ContactForm("", "", "")

  /** How long `sent` or `error` stays before the timer returns to `idle`. */
  const ResetDelay: nat := 4000

  /** The row inserted into `messages`. */
  datatype Message = Message(name: string, email: string, message: string)

  datatype Field = Name | Email | Body

  /** The section's state: the form and status cells, the insert requests still
      awaited and the reset timers still pending. */
  datatype Cells = Cells(form: ContactForm, status: Status, inFlight: nat, resets: nat)

  const Initial: Cells := Cells(EmptyForm, Idle, 0, 0)

  /** One input's `onChange`: that field takes the new value. */
  function Edited(c: Cells, f: Field, v: string): (r: Cells)
    ensures r.status == c.status && r.inFlight == c.inFlight && r.resets == c.resets
    ensures f == Name ==> r.form == c.form.(name := v)
    ensures f == Email ==> r.form == c.form.(email := v)
    ensures f == Body ==> r.form == c.form.(message := v)
  {
    var form := match f
      case Name => c.form.(name := v)
      case Email => c.form.(email := v)
      case Body => c.form.(message := v);
    c.(form := form)
  }

  /** The row the handler inserts: the current value of each field. */
  function PayloadOf(form: ContactForm): Message
  {
    Message(form.name, form.email, form.message)
  }

  /** The first, synchronous part of `handleSubmit`: status `sending`, and one
      insert request sent. */
  function Submitted(c: Cells): Cells
  {
    c.(status := Sending, inFlight := c.inFlight + 1)
  }

  /** The rest of `handleSubmit` once the insert settles. `ok` is false both when
      the response carries an error and when the call throws. Success clears the
      form; failure leaves it alone; either way a reset timer is scheduled. */
  function Settled(c: Cells, ok: bool): Cells
    requires c.inFlight > 0
  {
    if ok then Cells(EmptyForm, Sent, c.inFlight - 1, c.resets + 1)
    else c.(status := Error, inFlight := c.inFlight - 1, resets := c.resets + 1)
  }

  /** A reset timer fires. */
  function TimerFired(c: Cells): Cells
    requires c.resets > 0
  {
    c.(status := Idle, resets := c.resets - 1)
  }

  /** The submit button is disabled exactly while sending, so a new submission
      can only start from another status. */
  predicate ButtonDisabled(s: Status)
  {
    s == Sending
  }

  /** The button's text for each status. */
  function ButtonLabel(s: Status): string
  {
    match s
    case Sending => "Sending..."
    case Sent => "Message Sent!"
    case Error => "Failed — Try Again"
    case Idle => "Send Message"
  }

  datatype Look = Success | Failure | Primary

  /** The button's colour scheme: green after success, red after failure, the
      primary style otherwise (including while sending). */
  function ButtonLook(s: Status): (l: Look)
    ensures l == Success <==> s == Sent
    ensures l == Failure <==> s == Error
  {
    if s == Sent then Success else if s == Error then Failure else Primary
  }

  /** Each status has its own label, and the button is disabled only while
      sending. */
  lemma LabelsDistinguishStatuses(s: Status, t: Status)
    ensures ButtonLabel(s) == ButtonLabel(t) <==> s == t
    ensures ButtonDisabled(s) <==> ButtonLabel(s) == "Sending..."
  {
    if s != t {
      assert |ButtonLabel(s)| != |ButtonLabel(t)|;
    }
  }

  /** Submitting shows `sending`, keeps the form and inserts exactly its three
      fields. */
  lemma SubmitSendsForm(c: Cells)
    ensures Submitted(c).status == Sending && Submitted(c).form == c.form
    ensures PayloadOf(c.form) == Message(c.form.name, c.form.email, c.form.message)
    ensures ButtonDisabled(Submitted(c).status)
  {
  }

  /** Success clears every field and shows `sent`; failure keeps every field and
      shows `error`; both schedule one more reset. */
  lemma OutcomeEffects(c: Cells)
    requires c.inFlight > 0
    ensures Settled(c, true).status == Sent && Settled(c, true).form == ContactForm("", "", "")
    ensures Settled(c, false).status == Error && Settled(c, false).form == c.form
    ensures Settled(c, true).resets == c.resets + 1 && Settled(c, false).resets == c.resets + 1
  {
  }

  /** The invariant of every reachable state: `sending` always has a request in
      flight, and `sent` or `error` always has a reset pending, so neither status
      can be left without an event that ends it. */
  ghost predicate Inv(c: Cells)
  {
    (c.status == Sending ==> c.inFlight > 0)
    && (c.status == Sent || c.status == Error ==> c.resets > 0)
  }

  datatype Event = Edit(f: Field, v: string) | Submit | Settle(ok: bool) | Timer

  /** Whether an event can happen in a state: a submission needs the button
      enabled, a settlement an awaited request, a timer a pending reset. */
  predicate Enabled(c: Cells, e: Event)
  {
    match e
    case Edit(_, _) => true
    case Submit => !ButtonDisabled(c.status)
    case Settle(_) => c.inFlight > 0
    case Timer => c.resets > 0
  }

  function Step(c: Cells, e: Event): Cells
    requires Enabled(c, e)
  {
    match e
    case Edit(f, v) => Edited(c, f, v)
    case Submit => Submitted(c)
    case Settle(ok) => Settled(c, ok)
    case Timer => TimerFired(c)
  }

  lemma StepPreservesInv(c: Cells, e: Event)
    requires Inv(c) && Enabled(c, e)
    ensures Inv(Step(c, e))
  {
  }

  /** A trace of events, each enabled where it occurs; the state after it. */
  function Run(c: Cells, es: seq<Event>): Option<Cells>
    decreases |es|
  {
    if es == [] then Some(c)
    else if Enabled(c, es[0]) then Run(Step(c, es[0]), es[1..])
    else None
  }

  lemma {:induction false} ReachableInv(c: Cells, es: seq<Event>)
    requires Inv(c)
    ensures Run(c, es).Some? ==> Inv(Run(c, es).value)
    decreases |es|
  {
    if es != [] && Enabled(c, es[0]) {
      StepPreservesInv(c, es[0]);
      ReachableInv(Step(c, es[0]), es[1..]);
    }
  }

  /** The round trip: from the initial state, submit, settle either way, then the
      timer fires and the status is `idle` again with nothing pending. */
  lemma SendCycle(form: ContactForm, ok: bool)
    ensures var start := Cells(form, Idle, 0, 0);
      Run(start, [Submit, Settle(ok), Timer])
      == Some(Cells(if ok then EmptyForm else form, Idle, 0, 0))
  {
    var start := Cells(form, Idle, 0, 0);
    assert Run(start, [Submit, Settle(ok), Timer])
      == Run(Submitted(start), [Settle(ok), Timer]);
    var s1 := Submitted(start);
    assert Run(s1, [Settle(ok), Timer]) == Run(Settled(s1, ok), [Timer]);
    assert [Timer][1..] == [];
  }

  /** The reset timer is not cancelled by a new submission: a message sent within
      4000 ms of the previous outcome shows `idle`, with the button enabled, while
      its request is still in flight. */
  lemma StaleTimerEndsSending()
    ensures var after := Run(Initial, [Submit, Settle(true), Edit(Name, "a"), Submit, Timer]);
      after.Some? && after.value.status == Idle && after.value.inFlight == 1
      && !ButtonDisabled(after.value.status)
  {
    var s1 := Submitted(Initial);
    var s2 := Settled(s1, true);
    var s3 := Edited(s2, Name, "a");
    var s4 := Submitted(s3);
    var s5 := TimerFired(s4);
    assert Run(Initial, [Submit, Settle(true), Edit(Name, "a"), Submit, Timer])
      == Run(s1, [Settle(true), Edit(Name, "a"), Submit, Timer]);
    assert Run(s1, [Settle(true), Edit(Name, "a"), Submit, Timer]) == Run(s2, [Edit(Name, "a"), Submit, Timer]);
    assert Run(s2, [Edit(Name, "a"), Submit, Timer]) == Run(s3, [Submit, Timer]);
    assert Run(s3, [Submit, Timer]) == Run(s4, [Timer]);
    assert Run(s4, [Timer]) == Run(s5, []);
  }

  /** The component's state cells, stepped by its handlers and timers. */
  class ContactSection {
    var form: ContactForm
    var status: Status
    var inFlight: nat
    var resets: nat

    function Snapshot(): Cells
      reads this
    {
      Cells(form, status, inFlight, resets)
    }

    constructor ()
      ensures Snapshot() == Initial
    {
      form, status, inFlight, resets := EmptyForm, Idle, 0, 0;
    }

    method Change(f: Field, v: string)
      modifies this
      ensures Snapshot() == Edited(old(Snapshot()), f, v)
    {
      match f
      case Name => form := form.(name := v);
      case Email => form := form.(email := v);
      case Body => form := form.(message := v);
    }

    /** `handleSubmit` up to the `await`: returns the row to insert. */
    method Submit() returns (row: Message)
      requires !ButtonDisabled(status)
      modifies this
      ensures Snapshot() == Submitted(old(Snapshot()))
      ensures row == PayloadOf(old(form))
    {
      status := Sending;
      row := Message(form.name, form.email, form.message);
      inFlight := inFlight + 1;
    }

    /** `handleSubmit` after the `await`; returns the delay of the timer it
        schedules. */
    method Settle(ok: bool) returns (delay: nat)
      requires inFlight > 0
      modifies this
      ensures Snapshot() == Settled(old(Snapshot()), ok)
      ensures delay == ResetDelay
    {
      inFlight := inFlight - 1;
      if ok {
        status := Sent;
        form := EmptyForm;
      } else {
        status := Error;
      }
      resets := resets + 1;
      delay := ResetDelay;
    }

    method FireTimer()
      requires resets > 0
      modifies this
      ensures Snapshot() == TimerFired(old(Snapshot()))
    {
      status := Idle;
      resets := resets - 1;
    }
  }
}
