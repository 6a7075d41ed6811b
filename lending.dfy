/** The lending view of the `gt_frontend` app (`LendingBorrowing`): the loan
    list and the two filters over it, who may pay, the application and payment
    forms, and the handlers that call the lending service. */
module Lending {
  import opened Base
  import opened JsValue
  import opened Wire
  import opened Forms
  import Auth

  /** A loan as listed by the service, reduced to the fields the view decides
      on.  `lender` is a Candid optional (zero or one principal text) and
      `status` a variant object such as `{funded: null}`. */
  datatype Loan = Loan(id: int, borrower: string, lender: seq<string>, status: Value, duration: int)

  // ------------------------------------------------------------------ filters

  /** The test of `userLoans`: the user borrowed the loan, or lent it. */
  predicate IsUserLoan(loan: Loan, principal: string)
  {
    loan.borrower == principal || (|loan.lender| > 0 && loan.lender[0] == principal)
  }

  /** The test of `availableLoans`: approved, and borrowed by someone else. */
  predicate IsAvailable(loan: Loan, principal: string)
  {
    HasTag(loan.status, "approved") && loan.borrower != principal
  }

  function Mine(principal: string): Loan -> bool
  {
    loan => IsUserLoan(loan, principal)
  }

  function Offered(principal: string): Loan -> bool
  {
    loan => IsAvailable(loan, principal)
  }

  /** `userLoans`: exactly the listed loans the user borrowed or lent. */
  function UserLoans(loans: seq<Loan>, principal: string): (r: seq<Loan>)
    ensures |r| <= |loans|
    ensures forall l :: l in r <==> l in loans && IsUserLoan(l, principal)
  {
    Filter(loans, Mine(principal))
  }

  /** `availableLoans`: exactly the listed approved loans of other borrowers. */
  function AvailableLoans(loans: seq<Loan>, principal: string): (r: seq<Loan>)
    ensures |r| <= |loans|
    ensures forall l :: l in r <==> l in loans && IsAvailable(l, principal)
  {
    Filter(loans, Offered(principal))
  }

  /** Both filters keep the listed order: filtering a list split in two is
      filtering each part, one after the other. */
  lemma FiltersKeepOrder(a: seq<Loan>, b: seq<Loan>, principal: string)
    ensures UserLoans(a + b, principal) == UserLoans(a, principal) + UserLoans(b, principal)
    ensures AvailableLoans(a + b, principal) == AvailableLoans(a, principal) + AvailableLoans(b, principal)
  {
    FilterAppend(a, b, Mine(principal));
    FilterAppend(a, b, Offered(principal));
  }

  /** A list of the user's own loans is kept whole by `userLoans`. */
  lemma UserLoansKeepAll(loans: seq<Loan>, principal: string)
    requires forall i :: 0 <= i < |loans| ==> loans[i].borrower == principal
    ensures UserLoans(loans, principal) == loans
  {
    FilterKeepsAll(loans, Mine(principal));
  }

  /** A loan the user borrowed is never offered to them. */
  lemma OwnLoanNeverAvailable(loans: seq<Loan>, principal: string, loan: Loan)
    requires loan in loans && loan.borrower == principal
    ensures loan in UserLoans(loans, principal) && loan !in AvailableLoans(loans, principal)
  {
  }

  /** The condition of the Make Payment button. */
  predicate CanMakePayment(loan: Loan, principal: string)
  {
    loan.borrower == principal && (HasTag(loan.status, "funded") || HasTag(loan.status, "repaying"))
  }

  /** A payable loan is one of the user's loans and is never on offer. */
  lemma PayableIsOwn(loan: Loan, principal: string)
    requires CanMakePayment(loan, principal)
    ensures IsUserLoan(loan, principal) && !IsAvailable(loan, principal)
    ensures !HasTag(loan.status, "approved")
  {
  }

  /** The day count shown for a loan's duration: the whole number of days
      nearest to it. */
  function DurationDays(loan: Loan): (d: int)
    ensures -NanosPerDay <= 2 * (loan.duration - DaysToNanos(d)) < NanosPerDay
  {
    NanosToDaysNearest(loan.duration);
    NanosToDays(loan.duration)
  }

  /** A loan whose duration was applied for in whole days shows that day count. */
  lemma AppliedDurationShown(loan: Loan, days: int)
    requires loan.duration == DaysToNanos(days)
    ensures DurationDays(loan) == days
  {
    DaysRoundTrip(days);
  }

  /** `getStatusColor`, keyed by the status tag. */
  function StatusTone(status: Value): Tone
  {
    match KeyText(status)
    case "pending" => Yellow
    case "approved" => Green
    case "funded" => Blue
    case "repaying" => Teal
    case "repaid" => Gray
    case "defaulted" => Red
    case _ => Gray
  }

  /** Each of the five coloured tags has its own colour, and every other tag
      (repaid, unknown, or none at all) is grey. */
  lemma StatusTones(tag: string)
    ensures StatusTone(Variant(tag)) == Yellow <==> tag == "pending"
    ensures StatusTone(Variant(tag)) == Green <==> tag == "approved"
    ensures StatusTone(Variant(tag)) == Blue <==> tag == "funded"
    ensures StatusTone(Variant(tag)) == Teal <==> tag == "repaying"
    ensures StatusTone(Variant(tag)) == Red <==> tag == "defaulted"
    ensures StatusTone(Variant(tag)) == Gray <==>
      tag !in {"pending", "approved", "funded", "repaying", "defaulted"}
  {
    VariantTag(tag, tag);
  }

  // -------------------------------------------------------------------- forms

  /** The employment record of an empty application. */
  const EmptyEmployment: Props := [
    ("employer_name", Str("")), ("job_title", Str("")), ("employment_duration", Str("")),
    ("monthly_income", Str("")), ("employment_type", Str("full-time")), ("verified", Bool(false))]

  /** The financial record of an empty application. */
  const EmptyFinancial: Props := [
    ("monthly_income", Str("")), ("monthly_expenses", Str("")), ("existing_debts", Str("")),
    ("assets_value", Str("")), ("bank_statements_provided", Bool(false)),
    ("tax_returns_provided", Bool(false))]

  /** The property record of an empty application. */
  const EmptyProperty: Props := [
    ("submission_id", Str("")), ("estimated_value", Str("")), ("property_type", Str("residential")),
    ("location", Str("")), ("appraisal_date", Null), ("insurance_info", Null)]

  /** The empty loan application, with the user as borrower. */
  function InitialApplication(principal: string): (f: Props)
    ensures Keyed(f) && Get(f, "borrower") == Str(principal)
  {
    [("borrower", Str(principal)), ("requested_amount", Str("")), ("loan_purpose", Str("")),
     ("employment_info", Obj(EmptyEmployment)), ("financial_info", Obj(EmptyFinancial)),
     ("property_info", Obj(EmptyProperty)), ("additional_documents", Arr([])), ("duration", Str(""))]
  }

  /** The empty payment form. */
  const InitialPayment: Props := [("amount", Str("")), ("payment_type", Str("regular"))]

  /** The application as sent: the form with its loan duration converted from
      days to nanoseconds and its employment duration converted to an integer
      (the money fields are converted too; see the method). */
  datatype ApplicationCall = ApplicationCall(form: Props, durationNanos: int, employmentDuration: int)

  /** The arguments of `makePayment`: the loan id, the amount in cents and the
      payment type as a variant `{[type]: null}`. */
  datatype PaymentCall = PaymentCall(loanId: int, cents: int, paymentType: Value)

  class LendingPanel {
    const principal: string
    /** The handle the view calls through, `actors.lendingBorrowing`. */
    const service: Option<Auth.Handle>
    var loans: seq<Loan>
    var loading: bool
    var error: Option<string>
    var showLoanModal: bool
    var showPaymentModal: bool
    var selectedLoan: Option<Loan>
    var loanApplication: Props
    var paymentForm: Props

    /** The view as first rendered: no loans yet, loading, no error, both
        modals closed, nothing selected and both forms empty. */
    constructor(principal: string, service: Option<Auth.Handle>)
      ensures this.principal == principal && this.service == service
      ensures loans == [] && loading && error.None?
      ensures !showLoanModal && !showPaymentModal && selectedLoan.None?
      ensures loanApplication == InitialApplication(principal) && paymentForm == InitialPayment
    {
      this.principal := principal;
      this.service := service;
      loans := [];
      loading := true;
      error := None;
      showLoanModal := false;
      showPaymentModal := false;
      selectedLoan := None;
      loanApplication := InitialApplication(principal);
      paymentForm := InitialPayment;
    }

    /** `loadLoans`.  `call` is what `getAllLoans2(null)` does; without a
        service handle the optional chain yields nothing, so the list is
        empty.  A rejected call keeps the old list and reports the failure;
        loading ends either way. */
    method LoadLoans(call: ListCall<Loan>)
      modifies this`loans, this`loading, this`error
      ensures !loading
      ensures var c := if service.None? then MethodMissing else call;
        if c.CallThrew? then loans == old(loans) && error == Some("Failed to load loans")
        else loans == ListOrEmpty(c) && error.None?
    {
      loading := true;
      error := None;
      var c := if service.None? then MethodMissing else call;
      if c.CallThrew? {
        error := Some("Failed to load loans");
      } else {
        loans := ListOrEmpty(c);
      }
      loading := false;
    }

    /** `submitLoanApplication`.  `days` is `Number.parseInt(duration)` and
        `employment` is `Number.parseInt(employment_duration)`, each `None`
        when the text is not a number (so `BigInt` throws; the empty text of
        the initial form is such a text).  `amountsConvert` says whether every
        money field converted to a whole number of cents.  The call is made
        (and returned as `sent`) only when there is a service and all of these
        conversions succeeded.  Success (`result.success`) closes the
        modal, reloads and resets the form to exactly its initial value; a
        failed result reports its message; any throw reports the bare failure. */
    method SubmitLoanApplication(days: Option<int>, employment: Option<int>, amountsConvert: bool,
                                 reply: Reply<SuccessFlag>, reload: ListCall<Loan>)
      returns (sent: Option<ApplicationCall>)
      modifies this`loans, this`loading, this`error, this`showLoanModal, this`loanApplication
      ensures sent.Some? <==> service.Some? && days.Some? && employment.Some? && amountsConvert
      ensures sent.Some? ==>
        sent.value == ApplicationCall(old(loanApplication), DaysToNanos(days.value), employment.value)
      ensures (sent.None? || reply.Threw?) ==>
        && error == Some("Failed to submit loan application")
        && loans == old(loans) && loading == old(loading)
        && showLoanModal == old(showLoanModal) && loanApplication == old(loanApplication)
      ensures sent.Some? && reply.Resolved? && !reply.value.success ==>
        && error == Some("Failed to submit loan application: " + Display(reply.value.message))
        && loans == old(loans) && loading == old(loading)
        && showLoanModal == old(showLoanModal) && loanApplication == old(loanApplication)
      ensures sent.Some? && reply.Resolved? && reply.value.success ==>
        && !showLoanModal && !loading && loanApplication == InitialApplication(principal)
        && (if reload.CallThrew? then loans == old(loans) && error == Some("Failed to load loans")
            else loans == ListOrEmpty(reload) && error.None?)
    {
      error := None;
      if service.None? || days.None? || employment.None? || !amountsConvert {
        error := Some("Failed to submit loan application");
        return None;
      }
      sent := Some(ApplicationCall(loanApplication, DaysToNanos(days.value), employment.value));
      match reply {
        case Threw =>
          error := Some("Failed to submit loan application");
        case Resolved(result) =>
          if result.success {
            showLoanModal := false;
            LoadLoans(reload);
            loanApplication := InitialApplication(principal);
          } else {
            error := Some("Failed to submit loan application: " + Display(result.message));
          }
      }
    }

    /** `makePayment`.  `cents` is the converted amount (`None` when `BigInt`
        throws).  With no selected loan, no service or no amount the handler
        throws before calling.  An `ok` result closes the modal, resets the
        payment form, clears the selection and reloads; an `err` result names
        the error; a throw reports the bare failure. */
    method MakePayment(cents: Option<int>, reply: Reply<LowerResult<Value>>, reload: ListCall<Loan>)
      returns (sent: Option<PaymentCall>)
      modifies this`loans, this`loading, this`error, this`showPaymentModal, this`paymentForm,
               this`selectedLoan
      ensures sent.Some? <==> service.Some? && old(selectedLoan).Some? && cents.Some?
      ensures sent.Some? ==> sent.value == PaymentCall(old(selectedLoan).value.id, cents.value,
                                                       Variant(Display(Get(old(paymentForm), "payment_type"))))
      ensures (sent.None? || reply.Threw?) ==>
        && error == Some("Failed to make payment")
        && loans == old(loans) && loading == old(loading) && showPaymentModal == old(showPaymentModal)
        && paymentForm == old(paymentForm) && selectedLoan == old(selectedLoan)
      ensures sent.Some? && reply.Resolved? && reply.value.LowerErr? ==>
        && error == Some("Failed to make payment: " + Display(reply.value.err))
        && loans == old(loans) && loading == old(loading) && showPaymentModal == old(showPaymentModal)
        && paymentForm == old(paymentForm) && selectedLoan == old(selectedLoan)
      ensures sent.Some? && reply.Resolved? && reply.value.LowerOk? ==>
        && !showPaymentModal && paymentForm == InitialPayment && selectedLoan.None? && !loading
        && (if reload.CallThrew? then loans == old(loans) && error == Some("Failed to load loans")
            else loans == ListOrEmpty(reload) && error.None?)
    {
      error := None;
      var paymentType := Variant(Display(Get(paymentForm, "payment_type")));
      if selectedLoan.None? || service.None? || cents.None? {
        error := Some("Failed to make payment");
        return None;
      }
      sent := Some(PaymentCall(selectedLoan.value.id, cents.value, paymentType));
      match reply {
        case Threw =>
          error := Some("Failed to make payment");
        case Resolved(result) =>
          if result.LowerOk? {
            showPaymentModal := false;
            paymentForm := InitialPayment;
            selectedLoan := None;
            LoadLoans(reload);
          } else {
            error := Some("Failed to make payment: " + Display(result.err));
          }
      }
    }

    /** `fundLoan(loanId)`: an `ok` result reloads; an `err` result names the
        error; a throw (including a missing service) reports the bare failure.
        `called` says whether the service was called. */
    method FundLoan(loanId: int, reply: Reply<LowerResult<Value>>, reload: ListCall<Loan>)
      returns (called: bool)
      modifies this`loans, this`loading, this`error
      ensures called <==> service.Some?
      ensures (!called || reply.Threw?) ==>
        error == Some("Failed to fund loan") && loans == old(loans) && loading == old(loading)
      ensures called && reply.Resolved? && reply.value.LowerErr? ==>
        error == Some("Failed to fund loan: " + Display(reply.value.err))
        && loans == old(loans) && loading == old(loading)
      ensures called && reply.Resolved? && reply.value.LowerOk? ==>
        !loading &&
        (if reload.CallThrew? then loans == old(loans) && error == Some("Failed to load loans")
         else loans == ListOrEmpty(reload) && error.None?)
    {
      error := None;
      if service.None? {
        error := Some("Failed to fund loan");
        return false;
      }
      called := true;
      match reply {
        case Threw =>
          error := Some("Failed to fund loan");
        case Resolved(result) =>
          if result.LowerOk? {
            LoadLoans(reload);
          } else {
            error := Some("Failed to fund loan: " + Display(result.err));
          }
      }
    }

    /** `handleInputChange` on the application form. */
    method HandleInputChange(name: string, inputType: string, value: string, checked: bool)
      modifies this`loanApplication
      ensures loanApplication == DottedUpdate(old(loanApplication), name, InputValue(inputType, value, checked))
    {
      loanApplication := DottedUpdate(loanApplication, name, InputValue(inputType, value, checked));
    }

    /** The amount input: `{...paymentForm, amount: value}`. */
    method SetPaymentAmount(value: string)
      modifies this`paymentForm
      ensures paymentForm == Put(old(paymentForm), "amount", Str(value))
    {
      paymentForm := Put(paymentForm, "amount", Str(value));
    }

    /** The payment-type select: `{...paymentForm, payment_type: value}`. */
    method SetPaymentType(value: string)
      modifies this`paymentForm
      ensures paymentForm == Put(old(paymentForm), "payment_type", Str(value))
    {
      paymentForm := Put(paymentForm, "payment_type", Str(value));
    }

    /** The Make Payment button: select the loan and open the payment modal. */
    method SelectLoanForPayment(loan: Loan)
      modifies this`selectedLoan, this`showPaymentModal
      ensures selectedLoan == Some(loan) && showPaymentModal
    {
      selectedLoan := Some(loan);
      showPaymentModal := true;
    }
  }

  /** The payment type the select offers is sent as the variant with that tag
      and no other: choosing "extra" sends `{extra: null}`.  The tag sent is
      whatever the form holds, so a freshly reset form sends `{regular: null}`. */
  lemma PaymentTypeSent(choice: string)
    requires choice in {"regular", "extra", "final"}
    ensures var form := Put(InitialPayment, "payment_type", Str(choice));
      HasTag(Variant(Display(Get(form, "payment_type"))), choice)
    ensures HasTag(Variant(Display(Get(InitialPayment, "payment_type"))), "regular")
  {
    GetPutSame(InitialPayment, "payment_type", Str(choice));
    VariantTag(choice, choice);
  }
}
