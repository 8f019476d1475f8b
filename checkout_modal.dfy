/**
 * The checkout dialog (`CheckoutModal`): the customer form and its
 * validation, the step machine `form -> payment -> success`, the field
 * update that clears one error, and the payment polling as discrete ticks.
 * Each network answer is an input: `handleSubmit` receives the reply of the
 * transaction route, each polling tick the reply of the status route.
 */
module CheckoutModal {
  import opened Wrappers
  import opened Text
  import opened LiraPay
  import opened CreateTransaction
  import opened InputMasks
  import RaffleHero

  datatype Step = Form | Payment | Success

  /** The keys of `CustomerData`. */
  datatype Field = Name | Email | Phone | Document

  const AllFields: set<Field> := {Name, Email, Phone, Document}

  const NameRequired: string := "Nome é obrigatório"
  const EmailRequired: string := "Email é obrigatório"
  const EmailInvalid: string := "Email inválido"
  const PhoneRequired: string := "Telefone é obrigatório"
  const DocumentRequired: string := "CPF é obrigatório"

  function FieldValue(c: CustomerInput, f: Field): string
  {
    match f
    case Name => c.name
    case Email => c.email
    case Phone => c.phone
    case Document => c.document
  }

  /** `{ ...prev, [field]: value }` */
  function WithField(c: CustomerInput, f: Field, v: string): CustomerInput
  {
    match f
    case Name => c.(name := v)
    case Email => c.(email := v)
    case Phone => c.(phone := v)
    case Document => c.(document := v)
  }

  /** The outcome of each check `validateForm` makes, in the order it makes them. */
  datatype FormChecks = FormChecks(
    nameBlank: bool, emailBlank: bool, emailHasAt: bool, phoneBlank: bool, documentBlank: bool)

  function Checks(c: CustomerInput): FormChecks
  {
    FormChecks(Blank(c.name), Blank(c.email), '@' in c.email, Blank(c.phone), Blank(c.document))
  }

  /**
   * The message a field ends with once every check has run. The email has two
   * checks; the second, the missing `@`, is written last and so wins.
   */
  function CheckError(k: FormChecks, f: Field): Option<string>
  {
    match f
    case Name => if k.nameBlank then Some(NameRequired) else None
    case Email =>
      if !k.emailHasAt then Some(EmailInvalid)
      else if k.emailBlank then Some(EmailRequired)
      else None
    case Phone => if k.phoneBlank then Some(PhoneRequired) else None
    case Document => if k.documentBlank then Some(DocumentRequired) else None
  }

  /** The errors the checks leave: one entry per field that fails, with its last message. */
  function ErrorsOf(k: FormChecks): map<Field, string>
  {
    map f | f in AllFields && CheckError(k, f).Some? :: CheckError(k, f).value
  }

  /** The errors of a form. */
  function FormErrors(c: CustomerInput): map<Field, string>
  {
    ErrorsOf(Checks(c))
  }

  predicate FormValid(c: CustomerInput)
  {
    FormErrors(c) == map[]
  }

  /** A blank string has no `@`: the `@` is not whitespace. */
  lemma BlankHasNoAt(s: string)
    requires Blank(s)
    ensures '@' !in s
  {
    BlankIff(s);
  }

  /**
   * `validateForm` succeeds exactly when name, phone and CPF are not blank and
   * the email contains an `@`.
   */
  lemma FormValidIff(c: CustomerInput)
    ensures FormValid(c) <==> !Blank(c.name) && '@' in c.email && !Blank(c.phone) && !Blank(c.document)
  {
    var k := Checks(c);
    if k.nameBlank {
      assert Name in ErrorsOf(k);
    } else if !k.emailHasAt {
      assert Email in ErrorsOf(k);
    } else if k.phoneBlank {
      assert Phone in ErrorsOf(k);
    } else if k.documentBlank {
      assert Document in ErrorsOf(k);
    } else {
      if k.emailBlank {
        BlankHasNoAt(c.email);
      }
      NoErrors(k);
    }
  }

  /** When every check passes there are no errors at all. */
  lemma NoErrors(k: FormChecks)
    requires !k.nameBlank && !k.emailBlank && k.emailHasAt && !k.phoneBlank && !k.documentBlank
    ensures ErrorsOf(k) == map[]
  {
    forall f | f in AllFields ensures CheckError(k, f).None? {
    }
  }

  /** A dictionary holding, for each field, the message its checks leave, and nothing else, is the errors of those checks. */
  lemma SameErrors(k: FormChecks, e: map<Field, string>)
    requires forall f :: f in e <==> CheckError(k, f).Some?
    requires forall f :: f in e ==> e[f] == CheckError(k, f).value
    ensures e == ErrorsOf(k)
  {
    var d := ErrorsOf(k);
    forall f ensures f in e <==> f in d {
      match f
      case Name =>
      case Email =>
      case Phone =>
      case Document =>
    }
    assert e.Keys == d.Keys;
  }

  /**
   * "Email é obrigatório" is never shown: an email that fails is always
   * reported as "Email inválido", the empty one included.
   */
  lemma EmailRequiredNeverShown(c: CustomerInput)
    ensures Email in FormErrors(c) <==> '@' !in c.email
    ensures Email in FormErrors(c) ==> FormErrors(c)[Email] == "Email inválido"
    ensures Blank(c.email) ==> FormErrors(c)[Email] == "Email inválido"
  {
    var k := Checks(c);
    if k.emailBlank {
      BlankHasNoAt(c.email);
    }
    assert Email in ErrorsOf(k) <==> !k.emailHasAt;
  }

  /** The dialog's state; the order being bought is not part of it (it is read from the hero's props on submit). */
  datatype Session = Session(
    step: Step,
    customer: CustomerInput,
    acceptTerms: bool,
    errors: map<Field, string>,
    transaction: Option<TransactionSummary>,
    polling: bool,
    ticks: nat)

  /** The initial `useState` values. */
  const Opened: Session := Session(Form, CustomerInput("", "", "", ""), false, map[], None, false, 0)

  /** 15 minutes of 3-second ticks. */
  const MaxPollTicks: nat := 300

  /**
   * The invariant of the step machine: a transaction exists from the payment
   * step on, polling happens only in the payment step, and never past 300 ticks.
   */
  predicate WellFormed(s: Session)
  {
    && (s.step == Form <==> s.transaction == None)
    && (s.polling ==> s.step == Payment && s.ticks < MaxPollTicks)
    && s.ticks <= MaxPollTicks
  }

  /** The body `handleSubmit` posts to the transaction route. */
  function Order(c: CustomerInput, quantity: int, unitPrice: int, totalPrice: int): Body
  {
    Body(Some(c), quantity, unitPrice, totalPrice)
  }

  /**
   * `handleSubmit`: the form is validated first, whatever the terms box says;
   * only with a valid form and accepted terms is the order sent, and only a
   * successful reply moves to the payment step and starts polling. A reply
   * that failed or never came (`None`) is only reported with an alert.
   */
  function Submitted(s: Session, reply: Option<Response>): Session
  {
    Answered(s.(errors := FormErrors(s.customer)), FormValid(s.customer) && s.acceptTerms, reply)
  }

  /** The checked session once the order was (`sent`) or was not posted. */
  function Answered(checked: Session, sent: bool, reply: Option<Response>): Session
  {
    if sent && reply.Some? && reply.value.reply.Created? then
      checked.(transaction := Some(reply.value.reply.transaction), step := Payment, polling := true, ticks := 0)
    else checked
  }

  /**
   * The route's two answers as the dialog takes them: a created transaction
   * moves a valid form with accepted terms to the payment step, showing that
   * transaction's id and PIX code and polling for it; a gateway error leaves
   * the dialog on the form.
   */
  lemma RouteRepliesReachDialog(s: Session, t: LiraPay.CreatedTransaction, message: string)
    requires s.step == Form && FormValid(s.customer) && s.acceptTerms
    ensures var paid := Submitted(s, Some(SuccessResponse(t)));
      && paid.step == Payment && paid.polling && paid.ticks == 0 && paid.transaction.Some?
      && paid.transaction.value.id == t.id && paid.transaction.value.pixPayload == t.pixPayload
    ensures Submitted(s, Some(ErrorResponse(message))).step == Form
  {
  }

  /** The status route's answer to one poll; `NoAnswer` is an error reply or a failed request. */
  datatype PollReply = NoAnswer | Answer(status: string)

  predicate Confirms(r: PollReply)
  {
    r.Answer? && r.status == "AUTHORIZED"
  }

  /**
   * One tick of the polling interval. A confirmation moves to the success
   * step and stops polling; the 300th tick stops it in any case.
   */
  function Polled(s: Session, r: PollReply): Session
  {
    if !s.polling then s
    else if Confirms(r) then s.(step := Success, polling := false, ticks := s.ticks + 1)
    else if s.ticks + 1 == MaxPollTicks then s.(polling := false, ticks := s.ticks + 1)
    else s.(ticks := s.ticks + 1)
  }

  function Polls(s: Session, replies: seq<PollReply>): Session
    decreases |replies|
  {
    if replies == [] then s else Polls(Polled(s, replies[0]), replies[1..])
  }

  /** `handleInputChange`: the field takes the value, and its error, if any, is cleared. */
  function Edited(s: Session, f: Field, v: string): Session
  {
    s.(customer := WithField(s.customer, f, v),
       errors := if f in s.errors then s.errors - {f} else s.errors)
  }

  /** What each input hands to `handleInputChange`: phone and CPF go through their masks. */
  function Masked(f: Field, raw: string): string
  {
    match f
    case Phone => FormatPhone(raw)
    case Document => FormatCPF(raw)
    case _ => raw
  }

  lemma OpenedWellFormed()
    ensures WellFormed(Opened) && Opened.step == Form && !Opened.polling
  {
  }

  /**
   * Submitting sends nothing and stays on the form unless the form is valid
   * and the terms accepted; it reaches the payment step exactly when the
   * reply is a success, and then holds that reply's transaction.
   */
  lemma SubmitOutcomes(s: Session, reply: Option<Response>)
    requires WellFormed(s) && s.step == Form
    ensures WellFormed(Submitted(s, reply))
    ensures Submitted(s, reply).errors == FormErrors(s.customer)
    ensures Submitted(s, reply).step == Payment
      <==> FormValid(s.customer) && s.acceptTerms && reply.Some? && reply.value.reply.Created?
    ensures Submitted(s, reply).step != Payment ==> Submitted(s, reply).step == Form && !Submitted(s, reply).polling
    ensures Submitted(s, reply).step == Payment ==>
      Submitted(s, reply).transaction == Some(reply.value.reply.transaction) && Submitted(s, reply).polling
    ensures Submitted(s, reply).customer == s.customer && Submitted(s, reply).acceptTerms == s.acceptTerms
  {
  }

  /**
   * A tick changes nothing but the tick count unless it confirms the payment,
   * and it counts only while polling.
   */
  lemma PollTickIsQuiet(s: Session, r: PollReply)
    requires WellFormed(s)
    ensures WellFormed(Polled(s, r))
    ensures var t := Polled(s, r);
      && t.customer == s.customer && t.errors == s.errors && t.transaction == s.transaction
      && t.acceptTerms == s.acceptTerms
      && (t.step == Success <==> s.step == Success || (s.polling && Confirms(r)))
      && (!s.polling ==> t == s)
      && (s.polling ==> t.ticks == s.ticks + 1)
  {
  }

  /**
   * Polling from a fresh start of `k` ticks: the payment is confirmed exactly
   * when one of the remaining `300 - k` replies says "AUTHORIZED"; polling has
   * stopped once it is confirmed or the replies cover the remaining ticks, and
   * it never runs past 300 ticks.
   */
  lemma {:induction false} PollingConfirmsIff(s: Session, replies: seq<PollReply>)
    requires WellFormed(s) && s.polling
    ensures var t := Polls(s, replies);
      && WellFormed(t)
      && (t.step == Success <==>
          exists i :: 0 <= i < |replies| && i < MaxPollTicks - s.ticks && Confirms(replies[i]))
      && (t.step == Success ==> !t.polling)
      && (|replies| >= MaxPollTicks - s.ticks ==> !t.polling)
      && t.customer == s.customer && t.transaction == s.transaction
    decreases |replies|
  {
    if replies != [] {
      var u := Polled(s, replies[0]);
      if u.polling {
        PollingConfirmsIff(u, replies[1..]);
        var t := Polls(u, replies[1..]);
        if t.step == Success {
          var j :| 0 <= j < |replies[1..]| && j < MaxPollTicks - u.ticks && Confirms(replies[1..][j]);
          assert Confirms(replies[j + 1]);
        }
        if exists i :: 0 <= i < |replies| && i < MaxPollTicks - s.ticks && Confirms(replies[i]) {
          var i :| 0 <= i < |replies| && i < MaxPollTicks - s.ticks && Confirms(replies[i]);
          assert i != 0;
          assert Confirms(replies[1..][i - 1]);
        }
      } else {
        PollsStopped(u, replies[1..]);
        if u.step != Success {
          forall i | 0 <= i < |replies| && i < MaxPollTicks - s.ticks ensures !Confirms(replies[i]) {
            assert i == 0;
          }
        }
      }
    }
  }

  /** Once polling has stopped, later ticks change nothing. */
  lemma {:induction false} PollsStopped(s: Session, replies: seq<PollReply>)
    requires !s.polling
    ensures Polls(s, replies) == s
    decreases |replies|
  {
    if replies != [] {
      PollsStopped(Polled(s, replies[0]), replies[1..]);
    }
  }

  /**
   * Typing into a field changes that field only, removes that field's error
   * only, and leaves the step and the payment alone.
   */
  lemma InputChangeIsLocal(s: Session, f: Field, v: string)
    ensures var t := Edited(s, f, v);
      && FieldValue(t.customer, f) == v
      && (forall g :: g != f ==> FieldValue(t.customer, g) == FieldValue(s.customer, g))
      && f !in t.errors
      && (forall g :: g != f ==> (g in t.errors <==> g in s.errors))
      && (forall g :: g != f && g in s.errors ==> t.errors[g] == s.errors[g])
      && t.step == s.step && t.transaction == s.transaction && t.polling == s.polling
      && t.ticks == s.ticks && t.acceptTerms == s.acceptTerms
  {
  }

  /**
   * A CPF typed into the form, however punctuated, reaches the gateway as
   * its first eleven digits; so does the phone.
   */
  lemma TypedDocumentReachesGateway(c: CustomerInput, rawPhone: string, rawDocument: string)
    ensures var typed := WithField(WithField(c, Phone, Masked(Phone, rawPhone)), Document, Masked(Document, rawDocument));
      var p := Digits(rawPhone);
      var d := Digits(rawDocument);
      && FormatCustomerData(typed).phone == p[..Min(|p|, 11)]
      && FormatCustomerData(typed).document == d[..Min(|d|, 11)]
  {
    FormatPhoneKeepsDigits(rawPhone);
    FormatCPFKeepsDigits(rawDocument);
  }

  /**
   * An order the hero lets through, with a valid form, passes every gate of
   * the transaction route once the payment secret is configured: the route's
   * requirements are implied by the page's own.
   */
  lemma ConsistentOrderPassesGates(p: RaffleHero.Picker, c: CustomerInput, apiSecret: Option<string>)
    requires RaffleHero.Consistent(p) && FormValid(c) && Configured(apiSecret)
    ensures FirstFailingGate(Order(c, p.quantity, p.price, RaffleHero.TotalPrice(p)), apiSecret) == None
  {
    FormValidIff(c);
    NotBlankNotEmpty(c.name);
    NotBlankNotEmpty(c.phone);
    NotBlankNotEmpty(c.document);
    RaffleHero.TotalGateNeverFails(p);
    assert p.price >= 99;
  }

  /** The empty string is blank. */
  lemma NotBlankNotEmpty(s: string)
    requires !Blank(s)
    ensures s != ""
  {
  }

  /**
   * The body of `validateForm`: a fresh dictionary filled check by check,
   * later checks overwriting earlier ones for the same field.
   */
  method CollectErrors(k: FormChecks) returns (newErrors: map<Field, string>)
    ensures newErrors == ErrorsOf(k)
  {
    newErrors := map[];
    if k.nameBlank {
      newErrors := newErrors[Name := NameRequired];
    }
    if k.emailBlank {
      newErrors := newErrors[Email := EmailRequired];
    }
    if !k.emailHasAt {
      newErrors := newErrors[Email := EmailInvalid];
    }
    if k.phoneBlank {
      newErrors := newErrors[Phone := PhoneRequired];
    }
    if k.documentBlank {
      newErrors := newErrors[Document := DocumentRequired];
    }
    forall f
      ensures f in newErrors <==> CheckError(k, f).Some?
      ensures f in newErrors ==> newErrors[f] == CheckError(k, f).value
    {
      match f
      case Name =>
      case Email =>
      case Phone =>
      case Document =>
    }
    SameErrors(k, newErrors);
  }

  /**
   * The dialog's state. It is created once, when the page mounts, and outlives
   * closing and reopening; the order (`quantity`, `unitPrice`, `totalPrice`)
   * is not part of it but is read from the hero's current props when the form
   * is submitted. Network answers arrive as arguments.
   */
  class CheckoutSession {
    var step: Step
    var customer: CustomerInput
    var acceptTerms: bool
    var errors: map<Field, string>
    var transaction: Option<TransactionSummary>
    var polling: bool
    var ticks: nat

    function State(): Session
      reads this
    {
      Session(step, customer, acceptTerms, errors, transaction, polling, ticks)
    }

    predicate Valid()
      reads this
    {
      WellFormed(State())
    }

    constructor ()
      ensures State() == Opened && Valid()
    {
      step := Form;
      customer := CustomerInput("", "", "", "");
      acceptTerms := false;
      errors := map[];
      transaction := None;
      polling := false;
      ticks := 0;
    }

    /** The terms checkbox. */
    method SetAcceptTerms(checked: bool)
      modifies this
      ensures State() == old(State()).(acceptTerms := checked)
      ensures old(Valid()) ==> Valid()
    {
      acceptTerms := checked;
    }

    /** `validateForm`: fills a fresh error dictionary check by check, then publishes it. */
    method ValidateForm() returns (valid: bool)
      modifies this
      ensures State() == old(State()).(errors := FormErrors(customer))
      ensures valid <==> FormValid(customer)
      ensures old(Valid()) ==> Valid()
    {
      var newErrors := CollectErrors(Checks(customer));
      errors := newErrors;
      valid := |newErrors| == 0;
    }

    /**
     * `handleSubmit`, given the hero's props at the moment of the click and the
     * route's reply to the order it would send (`None` for a request that
     * failed). `sent` is the order posted, if any. Only reachable from the form
     * step, where its button is shown.
     */
    method HandleSubmit(quantity: int, unitPrice: int, totalPrice: int, reply: Option<Response>)
      returns (sent: Option<Body>)
      requires step == Form
      modifies this
      ensures State() == Submitted(old(State()), reply)
      ensures sent == if FormValid(customer) && acceptTerms
                      then Some(Order(customer, quantity, unitPrice, totalPrice)) else None
      ensures old(Valid()) ==> Valid()
    {
      ghost var before := State();
      var valid := ValidateForm();
      ghost var checked := State();
      assert checked == before.(errors := FormErrors(before.customer));
      if valid && acceptTerms {
        sent := Some(Order(customer, quantity, unitPrice, totalPrice));
      } else {
        sent := None;
      }
      TakeReply(valid && acceptTerms, reply);
      assert State() == Answered(checked, FormValid(before.customer) && before.acceptTerms, reply);
    }

    /** The part of `handleSubmit` after the order was (`posted`) or was not sent. */
    method TakeReply(posted: bool, reply: Option<Response>)
      requires posted ==> step == Form
      modifies this
      ensures State() == Answered(old(State()), posted, reply)
      ensures old(Valid()) ==> Valid()
    {
      if posted && reply.Some? && reply.value.reply.Created? {
        transaction := Some(reply.value.reply.transaction);
        step := Payment;
        polling := true;
        ticks := 0;
      }
    }

    /** One firing of the polling interval (or the timeout on the last one), given the status route's reply. */
    method PollTick(r: PollReply)
      modifies this
      ensures State() == Polled(old(State()), r)
      ensures old(Valid()) ==> Valid()
    {
      if !polling {
        return;
      }
      if Confirms(r) {
        polling := false;
        step := Success;
      } else if ticks + 1 == MaxPollTicks {
        polling := false;
      }
      ticks := ticks + 1;
    }

    /** `handleInputChange`. */
    method HandleInputChange(f: Field, value: string)
      modifies this
      ensures State() == Edited(old(State()), f, value)
      ensures old(Valid()) ==> Valid()
    {
      customer := WithField(customer, f, value);
      if f in errors {
        errors := errors - {f};
      }
    }

    /** An input's `onChange`: the raw text, masked for phone and CPF. */
    method TypeInto(f: Field, raw: string)
      modifies this
      ensures State() == Edited(old(State()), f, Masked(f, raw))
      ensures old(Valid()) ==> Valid()
    {
      var value := raw;
      if f == Phone {
        value := FormatPhone(raw);
      } else if f == Document {
        value := FormatCPF(raw);
      }
      HandleInputChange(f, value);
    }
  }
}
