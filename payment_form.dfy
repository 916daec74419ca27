/**
 * The payment form of PaymentGateway.js: the amount field filter, the deposit
 * and withdrawal validators with their per-currency bounds, the submit
 * handlers, the status-polling interval of a deposit and the UPI deep link.
 *
 * The calls into the payment API (create deposit, create withdrawal, status
 * check, balance update) are network calls; each becomes an input: the
 * outcome the call produced, or the ordered list of answers the polling
 * interval received.
 *
 * As in the game session, each handler is a pure transition on a FormState
 * value, and the class Form updates its fields in place to match it.
 */
module PaymentForm {
  import opened Wrappers
  import opened Numeric
  import Upi

  const MinWithdrawal: nat := 1000

  /** MIN_AMOUNT and MAX_AMOUNT, keyed by source currency. */
  const MinAmount: map<string, nat> := map["INR" := 100, "USD" := 1, "EUR" := 1, "GBP" := 1]
  const MaxAmount: map<string, nat> := map["INR" := 1000000, "USD" := 10000, "EUR" := 10000, "GBP" := 10000]

  /** Why a submission is refused; each constructor is one `setError` text. */
  datatype FormError =
    | BelowMinimumDeposit(currency: string, minimum: Option<nat>) // 'Minimum deposit amount is <cur> <min>'
    | AboveMaximumDeposit(currency: string, maximum: nat)         // 'Maximum deposit amount is <cur> <max>'
    | NoUpiApp                                                    // 'Please select a UPI app'
    | NoBank                                                      // 'Please select a bank'
    | BelowMinimumWithdrawal(least: nat)                          // 'Minimum withdrawal amount is ₹1000'
    | InsufficientFunds                                           // 'Insufficient balance'
    | NoUpiId                                                     // 'Please enter your UPI ID'
    | NoAccountNumber                                             // 'Please enter your account number'
    | NoIfscCode                                                  // 'Please enter IFSC code'
    | NoAccountHolder                                             // 'Please enter account holder name'

  /** The text fields of the form; "" is an empty (falsy) field. */
  datatype FormInputs = FormInputs(
    amount: string,
    sourceCurrency: string,
    paymentMethod: string,
    selectedUpiApp: string,
    bankName: string,
    accountNumber: string,
    ifscCode: string,
    accountHolderName: string,
    upiId: string)

  // ---------------------------------------------------------------- validators

  /** `parseInt(amount) < MIN_AMOUNT[cur]`: false for a currency outside the table. */
  predicate BelowMinimum(value: nat, currency: string) {
    currency in MinAmount && value < MinAmount[currency]
  }

  /** `parseInt(amount) > MAX_AMOUNT[cur]`: false for a currency outside the table. */
  predicate AboveMaximum(value: nat, currency: string) {
    currency in MaxAmount && value > MaxAmount[currency]
  }

  /**
   * validateDeposit: the first failing check decides the error, in the order
   * amount and minimum, maximum, UPI app, bank.  The amount field only ever
   * holds digits, so `parseInt` is the decimal value of the field.
   */
  function ValidateDeposit(f: FormInputs): (e: Option<FormError>)
    requires AllDigits(f.amount)
    ensures e.None? <==>
      f.amount != "" &&
      (f.sourceCurrency in MinAmount ==> MinAmount[f.sourceCurrency] <= DigitsValue(f.amount)) &&
      (f.sourceCurrency in MaxAmount ==> DigitsValue(f.amount) <= MaxAmount[f.sourceCurrency]) &&
      (f.paymentMethod == "UPI" ==> f.selectedUpiApp != "") &&
      (f.paymentMethod == "BANK" ==> f.bankName != "")
    ensures f.amount == "" || BelowMinimum(DigitsValue(f.amount), f.sourceCurrency) ==>
      e.Some? && e.value.BelowMinimumDeposit? && e.value.currency == f.sourceCurrency &&
      e.value.minimum == (if f.sourceCurrency in MinAmount then Some(MinAmount[f.sourceCurrency]) else None)
    ensures (f.amount != "" && !BelowMinimum(DigitsValue(f.amount), f.sourceCurrency) &&
             AboveMaximum(DigitsValue(f.amount), f.sourceCurrency)) ==>
      e == Some(AboveMaximumDeposit(f.sourceCurrency, MaxAmount[f.sourceCurrency]))
    ensures (f.amount != "" && !BelowMinimum(DigitsValue(f.amount), f.sourceCurrency) &&
             !AboveMaximum(DigitsValue(f.amount), f.sourceCurrency)) ==>
      (f.paymentMethod == "UPI" && f.selectedUpiApp == "" ==> e == Some(NoUpiApp)) &&
      (f.paymentMethod == "BANK" && f.bankName == "" ==> e == Some(NoBank))
    ensures e == Some(NoUpiApp) ==> f.amount != "" && f.paymentMethod == "UPI" && f.selectedUpiApp == ""
    ensures e == Some(NoBank) ==>
      f.amount != "" && f.paymentMethod == "BANK" && f.bankName == "" &&
      !BelowMinimum(DigitsValue(f.amount), f.sourceCurrency) &&
      !AboveMaximum(DigitsValue(f.amount), f.sourceCurrency)
  {
    var cur := f.sourceCurrency;
    if f.amount == "" || BelowMinimum(DigitsValue(f.amount), cur) then
      Some(BelowMinimumDeposit(cur, if cur in MinAmount then Some(MinAmount[cur]) else None))
    else if AboveMaximum(DigitsValue(f.amount), cur) then
      Some(AboveMaximumDeposit(cur, MaxAmount[cur]))
    else if f.paymentMethod == "UPI" && f.selectedUpiApp == "" then
      Some(NoUpiApp)
    else if f.paymentMethod == "BANK" && f.bankName == "" then
      Some(NoBank)
    else
      None
  }

  /** Both bounds are themselves accepted: an amount between them passes the amount checks. */
  lemma DepositBoundsInclusive(f: FormInputs)
    requires AllDigits(f.amount) && f.amount != ""
    requires f.sourceCurrency in MinAmount && f.sourceCurrency in MaxAmount
    requires MinAmount[f.sourceCurrency] <= DigitsValue(f.amount) <= MaxAmount[f.sourceCurrency]
    ensures ValidateDeposit(f).None? || ValidateDeposit(f) == Some(NoUpiApp) || ValidateDeposit(f) == Some(NoBank)
  {
  }

  /** The amount checks come first: a bad amount is reported whatever the method. */
  lemma DepositAmountCheckedFirst(f: FormInputs, payMethod: string, app: string, bank: string)
    requires AllDigits(f.amount)
    requires f.amount == "" || BelowMinimum(DigitsValue(f.amount), f.sourceCurrency) ||
             AboveMaximum(DigitsValue(f.amount), f.sourceCurrency)
    ensures ValidateDeposit(f.(paymentMethod := payMethod, selectedUpiApp := app, bankName := bank)) ==
            ValidateDeposit(f)
    ensures ValidateDeposit(f).Some? &&
            (ValidateDeposit(f).value.BelowMinimumDeposit? || ValidateDeposit(f).value.AboveMaximumDeposit?)
  {
  }

  /**
   * ₹100 is the smallest INR deposit and ₹10,00,000 the largest: a card
   * deposit of `n` rupees is accepted exactly when 100 <= n <= 1000000.
   */
  lemma InrDepositLimits(f: FormInputs, n: nat)
    requires f.sourceCurrency == "INR" && f.paymentMethod == "CARD"
    ensures ValidateDeposit(f.(amount := NatText(n))).None? <==> 100 <= n <= 1000000
    ensures n < 100 ==> ValidateDeposit(f.(amount := NatText(n))) == Some(BelowMinimumDeposit("INR", Some(100)))
    ensures n > 1000000 ==> ValidateDeposit(f.(amount := NatText(n))) == Some(AboveMaximumDeposit("INR", 1000000))
  {
    NatTextRoundTrip(n);
  }

  /**
   * validateWithdrawal: minimum first, then the balance, then the fields of
   * the method.  `balance` is the optional prop; when it is absent the
   * comparison with `undefined` is false and no amount is too large.
   */
  function ValidateWithdrawal(f: FormInputs, balance: Option<real>): (e: Option<FormError>)
    requires AllDigits(f.amount)
    ensures e.None? <==>
      f.amount != "" && DigitsValue(f.amount) >= MinWithdrawal &&
      (balance.Some? ==> DigitsValue(f.amount) as real <= balance.value) &&
      (f.paymentMethod == "UPI" ==> f.upiId != "") &&
      (f.paymentMethod == "BANK" ==> f.accountNumber != "" && f.ifscCode != "" && f.accountHolderName != "")
    ensures f.amount == "" || DigitsValue(f.amount) < MinWithdrawal ==> e == Some(BelowMinimumWithdrawal(MinWithdrawal))
    ensures e == Some(InsufficientFunds) <==>
      f.amount != "" && DigitsValue(f.amount) >= MinWithdrawal &&
      balance.Some? && DigitsValue(f.amount) as real > balance.value
    ensures (f.amount != "" && DigitsValue(f.amount) >= MinWithdrawal &&
             (balance.Some? ==> DigitsValue(f.amount) as real <= balance.value)) ==>
      (f.paymentMethod == "UPI" && f.upiId == "" ==> e == Some(NoUpiId)) &&
      (f.paymentMethod == "BANK" && f.accountNumber == "" ==> e == Some(NoAccountNumber)) &&
      (f.paymentMethod == "BANK" && f.accountNumber != "" && f.ifscCode == "" ==> e == Some(NoIfscCode)) &&
      (f.paymentMethod == "BANK" && f.accountNumber != "" && f.ifscCode != "" && f.accountHolderName == "" ==>
         e == Some(NoAccountHolder))
    ensures e == Some(NoIfscCode) ==> f.paymentMethod == "BANK" && f.accountNumber != "" && f.ifscCode == ""
    ensures e == Some(NoAccountHolder) ==>
      f.paymentMethod == "BANK" && f.accountNumber != "" && f.ifscCode != "" && f.accountHolderName == ""
  {
    if f.amount == "" || DigitsValue(f.amount) < MinWithdrawal then
      Some(BelowMinimumWithdrawal(MinWithdrawal))
    else if balance.Some? && DigitsValue(f.amount) as real > balance.value then
      Some(InsufficientFunds)
    else if f.paymentMethod == "UPI" && f.upiId == "" then
      Some(NoUpiId)
    else if f.paymentMethod == "BANK" && f.accountNumber == "" then
      Some(NoAccountNumber)
    else if f.paymentMethod == "BANK" && f.ifscCode == "" then
      Some(NoIfscCode)
    else if f.paymentMethod == "BANK" && f.accountHolderName == "" then
      Some(NoAccountHolder)
    else
      None
  }

  /** An amount equal to the balance is accepted; one unit more is refused. */
  lemma WithdrawalUpToBalance(f: FormInputs, balance: real)
    requires AllDigits(f.amount) && f.amount != "" && DigitsValue(f.amount) >= MinWithdrawal
    ensures DigitsValue(f.amount) as real == balance ==>
      ValidateWithdrawal(f, Some(balance)) == ValidateWithdrawal(f, None)
    ensures DigitsValue(f.amount) as real > balance ==>
      ValidateWithdrawal(f, Some(balance)) == Some(InsufficientFunds)
  {
  }

  /**
   * App.js mounts the form without a `balance` prop, so the gateway never
   * refuses a withdrawal for want of funds, however large the amount.
   */
  lemma NoBalancePropNeverInsufficient(f: FormInputs)
    requires AllDigits(f.amount)
    ensures ValidateWithdrawal(f, None) != Some(InsufficientFunds)
    ensures f.amount != "" && DigitsValue(f.amount) >= MinWithdrawal && f.paymentMethod == "CARD" ==>
      ValidateWithdrawal(f, None).None?
  {
  }

  // ---------------------------------------------------------------- UPI link

  /** The `upiUrls` table of the form; `bhim` doubles as the fallback. */
  const AppSchemes: map<string, string> :=
    map["gpay" := "gpay://upi/pay", "phonepe" := "phonepe://pay", "paytm" := "paytmmp://pay", "bhim" := "upi://pay"]

  /** `upiUrls[upiApp] || upiUrls.bhim`, on the scheme part of each link. */
  function AppScheme(upiApp: string): (scheme: string)
    ensures scheme == "upi://pay" <==> upiApp != "gpay" && upiApp != "phonepe" && upiApp != "paytm"
    ensures upiApp == "gpay" ==> scheme == "gpay://upi/pay"
    ensures upiApp == "phonepe" ==> scheme == "phonepe://pay"
    ensures upiApp == "paytm" ==> scheme == "paytmmp://pay"
  {
    if upiApp in AppSchemes then AppSchemes[upiApp] else AppSchemes["bhim"]
  }

  /** The merchant settings the form reads from its build environment. */
  datatype MerchantEnv = MerchantEnv(merchantUpiId: string, merchantName: string)

  /**
   * The form's generateUPIUrl: payee, payee name, note, amount and currency,
   * in that order; the currency is always INR, whatever the form's currency.
   */
  function PaymentLink(env: MerchantEnv, orderId: string, amount: string, upiApp: string): Upi.Link {
    Upi.Link(AppScheme(upiApp),
             [Upi.Param("pa", env.merchantUpiId),
              Upi.Param("pn", env.merchantName),
              Upi.Param("tn", "Payment for Order " + orderId),
              Upi.Param("am", amount),
              Upi.Param("cu", "INR")])
  }

  /**
   * What the link carries: the app's scheme, the five parameter names in
   * order, and under each name the value it was built from.
   */
  lemma PaymentLinkParams(env: MerchantEnv, orderId: string, amount: string, upiApp: string)
    ensures var link := PaymentLink(env, orderId, amount, upiApp);
      link.scheme == AppScheme(upiApp) &&
      Upi.Keys(link.query) == ["pa", "pn", "tn", "am", "cu"] &&
      Upi.Lookup(link.query, "pa") == Some(env.merchantUpiId) &&
      Upi.Lookup(link.query, "pn") == Some(env.merchantName) &&
      Upi.Lookup(link.query, "tn") == Some("Payment for Order " + orderId) &&
      Upi.Lookup(link.query, "am") == Some(amount) &&
      Upi.Lookup(link.query, "cu") == Some("INR")
  {
    LinkKeys(env, orderId, amount, upiApp);
    LinkLookups(env, orderId, amount, upiApp);
  }

  /** The link's parameter names, in order. */
  lemma LinkKeys(env: MerchantEnv, orderId: string, amount: string, upiApp: string)
    ensures Upi.Keys(PaymentLink(env, orderId, amount, upiApp).query) == ["pa", "pn", "tn", "am", "cu"]
  {
    var ks := Upi.Keys(PaymentLink(env, orderId, amount, upiApp).query);
    assert ks[0] == "pa" && ks[1] == "pn" && ks[2] == "tn" && ks[3] == "am" && ks[4] == "cu";
  }

  /** The value found under each of the link's names. */
  lemma LinkLookups(env: MerchantEnv, orderId: string, amount: string, upiApp: string)
    ensures var query := PaymentLink(env, orderId, amount, upiApp).query;
      Upi.Lookup(query, "pa") == Some(env.merchantUpiId) &&
      Upi.Lookup(query, "pn") == Some(env.merchantName) &&
      Upi.Lookup(query, "tn") == Some("Payment for Order " + orderId) &&
      Upi.Lookup(query, "am") == Some(amount) &&
      Upi.Lookup(query, "cu") == Some("INR")
  {
    var query := PaymentLink(env, orderId, amount, upiApp).query;
    LinkKeysDistinct(env, orderId, amount, upiApp);
    Upi.LookupFindsEachParam(query, 0);
    Upi.LookupFindsEachParam(query, 1);
    Upi.LookupFindsEachParam(query, 2);
    Upi.LookupFindsEachParam(query, 3);
    Upi.LookupFindsEachParam(query, 4);
  }

  /** The five parameter names of the form's link are distinct. */
  lemma LinkKeysDistinct(env: MerchantEnv, orderId: string, amount: string, upiApp: string)
    ensures var query := PaymentLink(env, orderId, amount, upiApp).query;
      forall i, j :: 0 <= i < j < |query| ==> query[i].key != query[j].key
  {
    var query := PaymentLink(env, orderId, amount, upiApp).query;
    assert query[0].key[1] != query[1].key[1];
    assert forall i, j :: 0 <= i < j < |query| && j >= 2 ==> query[i].key[0] != query[j].key[0];
  }

  // ---------------------------------------------------------------- polling

  datatype PayStatus = NoStatus | Processing | BankDetails | Succeeded | Failed

  /** The error line of the form: a validation refusal or a message text. */
  datatype Notice = Invalid(reason: FormError) | Text(text: string)

  const PaymentFailedText: string := "Payment failed. Please try again."
  const StatusCheckErrorText: string := "Error checking payment status"
  const WithdrawalFailedText: string := "Withdrawal failed. Please try again."

  /** One tick of the interval: the status the API answered, or a thrown error. */
  datatype PollResult = Reported(status: string) | CheckThrew

  predicate Terminal(p: PollResult) {
    p.CheckThrew? || p.status == "completed" || p.status == "failed"
  }

  /**
   * What the interval touches: whether it is still running, the status and
   * error shown, and the amounts passed to `onSuccess`, in order.
   */
  datatype Poller = Poller(polling: bool, status: PayStatus, error: Option<Notice>, credits: seq<int>)

  /**
   * One tick.  `updateError` is what `updateUserBalance` threw, if anything;
   * a throw there lands in the same catch as a failed status check.
   */
  function Tick(v: Poller, p: PollResult, amount: nat, updateError: Option<string>): Poller {
    if !v.polling then v
    else match p
      case CheckThrew => Poller(false, Failed, Some(Text(StatusCheckErrorText)), v.credits)
      case Reported(status) =>
        if status == "completed" then
          if updateError.None? then Poller(false, Succeeded, v.error, v.credits + [amount])
          else Poller(false, Failed, Some(Text(StatusCheckErrorText)), v.credits)
        else if status == "failed" then Poller(false, Failed, Some(Text(PaymentFailedText)), v.credits)
        else v
  }

  /** The ticks in order. */
  function Run(v: Poller, polls: seq<PollResult>, amount: nat, updateError: Option<string>): Poller
    decreases |polls|
  {
    if |polls| == 0 then v else Run(Tick(v, polls[0], amount, updateError), polls[1..], amount, updateError)
  }

  /** The index of the first answer that stops the interval. */
  function FirstTerminal(polls: seq<PollResult>): (k: Option<nat>)
    ensures k.Some? ==> k.value < |polls| && Terminal(polls[k.value])
    ensures k.Some? ==> forall j :: 0 <= j < k.value ==> !Terminal(polls[j])
    ensures k.None? ==> forall j :: 0 <= j < |polls| ==> !Terminal(polls[j])
  {
    if |polls| == 0 then None
    else if Terminal(polls[0]) then Some(0)
    else match FirstTerminal(polls[1..])
      case None => None
      case Some(k) => Some(k + 1)
  }

  /**
   * Polling is decided by its first terminal answer alone: every answer
   * before it changes nothing, every answer after it is ignored, and with no
   * terminal answer the interval is still running untouched.
   */
  lemma {:induction false} RunIsFirstTerminal(v: Poller, polls: seq<PollResult>, amount: nat, updateError: Option<string>)
    requires v.polling
    ensures FirstTerminal(polls).None? ==> Run(v, polls, amount, updateError) == v
    ensures FirstTerminal(polls).Some? ==>
      Run(v, polls, amount, updateError) == Tick(v, polls[FirstTerminal(polls).value], amount, updateError)
    decreases |polls|
  {
    if |polls| > 0 {
      if Terminal(polls[0]) {
        StoppedStaysStopped(Tick(v, polls[0], amount, updateError), polls[1..], amount, updateError);
      } else {
        assert Tick(v, polls[0], amount, updateError) == v;
        RunIsFirstTerminal(v, polls[1..], amount, updateError);
        if FirstTerminal(polls[1..]).Some? {
          assert polls[1..][FirstTerminal(polls[1..]).value] == polls[FirstTerminal(polls).value];
        }
      }
    }
  }

  /** After `clearInterval` no answer has any effect. */
  lemma {:induction false} StoppedStaysStopped(v: Poller, polls: seq<PollResult>, amount: nat, updateError: Option<string>)
    requires !v.polling
    ensures Run(v, polls, amount, updateError) == v
    decreases |polls|
  {
    if |polls| > 0 {
      StoppedStaysStopped(v, polls[1..], amount, updateError);
    }
  }

  /**
   * The deposit is credited at most once, with `+amount`, and exactly when
   * the first terminal answer is "completed" and the balance update went
   * through.
   */
  lemma CreditedOnceOnCompletion(v: Poller, polls: seq<PollResult>, amount: nat, updateError: Option<string>)
    requires v.polling
    ensures var credited := FirstTerminal(polls).Some? &&
                            polls[FirstTerminal(polls).value] == Reported("completed") &&
                            updateError.None?;
            Run(v, polls, amount, updateError).credits == v.credits + (if credited then [amount] else [])
    ensures Run(v, polls, amount, updateError).polling <==> FirstTerminal(polls).None?
  {
    RunIsFirstTerminal(v, polls, amount, updateError);
  }

  /** Answers that arrive after the interval has stopped do not change the outcome. */
  lemma LaterAnswersIgnored(v: Poller, polls: seq<PollResult>, later: seq<PollResult>,
                            amount: nat, updateError: Option<string>)
    requires v.polling && FirstTerminal(polls).Some?
    ensures Run(v, polls + later, amount, updateError) == Run(v, polls, amount, updateError)
  {
    var k := FirstTerminal(polls).value;
    FirstTerminalOfExtension(polls, later);
    assert (polls + later)[k] == polls[k];
    RunIsFirstTerminal(v, polls, amount, updateError);
    RunIsFirstTerminal(v, polls + later, amount, updateError);
  }

  lemma {:induction false} FirstTerminalOfExtension(polls: seq<PollResult>, later: seq<PollResult>)
    requires FirstTerminal(polls).Some?
    ensures FirstTerminal(polls + later) == FirstTerminal(polls)
    decreases |polls|
  {
    if !Terminal(polls[0]) {
      assert (polls + later)[1..] == polls[1..] + later;
      FirstTerminalOfExtension(polls[1..], later);
    }
  }

  // ---------------------------------------------------------------- handlers

  /** What the API call that creates a deposit or withdrawal produced. */
  datatype CreateOutcome = Created(id: string) | NoRecord | Threw(message: string)

  /** `err.message || fallback`. */
  function ErrorText(message: string, fallback: string): (t: string)
    ensures t == "" <==> message == "" && fallback == ""
    ensures message != "" ==> t == message
    ensures message == "" ==> t == fallback
  {
    if message != "" then message else fallback
  }

  datatype FormState = FormState(
    inputs: FormInputs,
    error: Option<Notice>,
    processing: bool,
    paymentStatus: PayStatus,
    redirect: Option<Upi.Link>,   // window.location.href, once set
    polling: bool,                // the status interval is running
    pollAmount: nat,              // parseInt(amount) as the interval captured it
    credits: seq<int>)            // amounts passed to onSuccess, in order

  /** The amount field only ever holds decimal digits (or nothing). */
  predicate ValidForm(s: FormState) {
    AllDigits(s.inputs.amount)
  }

  function InitialForm(): (s: FormState)
    ensures ValidForm(s) && s.credits == [] && !s.polling
  {
    FormState(FormInputs("", "INR", "UPI", "", "", "", "", "", ""), None, false, NoStatus, None, false, 0, [])
  }

  /** handleAmountChange: `''` or `/^\d+$/` is taken and clears the error; anything else is dropped. */
  function AmountChanged(s: FormState, value: string): FormState {
    if value == "" || (|value| > 0 && AllDigits(value)) then
      s.(inputs := s.inputs.(amount := value), error := None)
    else s
  }

  /** handleQuickAmount: a preset button writes its value and clears the error. */
  function QuickAmount(s: FormState, value: nat): FormState {
    s.(inputs := s.inputs.(amount := NatText(value)), error := None)
  }

  /** The other inputs of the form, set verbatim by their change handlers. */
  function FieldsEdited(s: FormState, sourceCurrency: string, paymentMethod: string, upiApp: string,
                        bankName: string, accountNumber: string, ifscCode: string,
                        holder: string, upiId: string): FormState {
    s.(inputs := FormInputs(s.inputs.amount, sourceCurrency, paymentMethod, upiApp, bankName,
                            accountNumber, ifscCode, holder, upiId))
  }

  /**
   * handleDeposit up to the start of polling: validate, create the deposit,
   * then redirect to the UPI app or show the bank details, and start the
   * interval.  `processing` is back to false when the handler returns.
   */
  function DepositSubmitted(s: FormState, env: MerchantEnv, outcome: CreateOutcome): FormState
    requires ValidForm(s)
  {
    var refusal := ValidateDeposit(s.inputs);
    if refusal.Some? then s.(error := Some(Invalid(refusal.value)))
    else DepositSent(s, env, outcome)
  }

  /** handleDeposit once the form is valid: the API call and what follows it. */
  function DepositSent(s: FormState, env: MerchantEnv, outcome: CreateOutcome): FormState
    requires ValidForm(s)
  {
    var f := s.inputs;
    var started := s.(processing := false, error := None, paymentStatus := Processing);
    match outcome
      case Created(id) =>
        var shown :=
          if f.paymentMethod == "UPI" then started.(redirect := Some(PaymentLink(env, id, f.amount, f.selectedUpiApp)))
          else if f.paymentMethod == "BANK" then started.(paymentStatus := BankDetails)
          else started;
        shown.(polling := true, pollAmount := DigitsValue(f.amount))
      case NoRecord => started
      case Threw(message) =>
        started.(paymentStatus := Failed, error := Some(Text(ErrorText(message, PaymentFailedText))))
  }

  function PollerOf(s: FormState): Poller {
    Poller(s.polling, s.paymentStatus, s.error, s.credits)
  }

  /** The interval's ticks, answered by `polls` in order. */
  function Polled(s: FormState, polls: seq<PollResult>, updateError: Option<string>): FormState {
    var v := Run(PollerOf(s), polls, s.pollAmount, updateError);
    s.(polling := v.polling, paymentStatus := v.status, error := v.error, credits := v.credits)
  }

  /**
   * handleWithdrawal: validate, create the withdrawal, then on a record show
   * success and report `-amount`.  `updateError` is what the balance update
   * threw, if anything.
   */
  function WithdrawalSubmitted(s: FormState, balance: Option<real>, outcome: CreateOutcome,
                               updateError: Option<string>): FormState
    requires ValidForm(s)
  {
    var f := s.inputs;
    var refusal := ValidateWithdrawal(f, balance);
    if refusal.Some? then s.(error := Some(Invalid(refusal.value)))
    else
      var started := s.(processing := false, error := None, paymentStatus := Processing);
      match outcome
        case Created(_) =>
          if updateError.None? then
            started.(paymentStatus := Succeeded, credits := s.credits + [-(DigitsValue(f.amount) as int)])
          else
            started.(paymentStatus := Failed, error := Some(Text(ErrorText(updateError.value, WithdrawalFailedText))))
        case NoRecord => started
        case Threw(message) =>
          started.(paymentStatus := Failed, error := Some(Text(ErrorText(message, WithdrawalFailedText))))
  }

  // ---------------------------------------------------------------- properties of the handlers

  /** Every handler keeps the amount field to digits. */
  lemma HandlersKeepAmountDigits(s: FormState, value: string, quick: nat, env: MerchantEnv,
                                 outcome: CreateOutcome, polls: seq<PollResult>,
                                 balance: Option<real>, updateError: Option<string>)
    requires ValidForm(s)
    ensures ValidForm(AmountChanged(s, value))
    ensures ValidForm(QuickAmount(s, quick))
    ensures ValidForm(DepositSubmitted(s, env, outcome))
    ensures ValidForm(Polled(s, polls, updateError))
    ensures ValidForm(WithdrawalSubmitted(s, balance, outcome, updateError))
  {
  }

  /**
   * A change to anything but `''` or digits leaves the amount and the error as
   * they were; an accepted change stores the text and clears the error.
   */
  lemma AmountChangeFilter(s: FormState, value: string)
    ensures AmountChanged(s, value).inputs.amount == value || AmountChanged(s, value) == s
    ensures AmountChanged(s, value) != s ==> AllDigits(value) && AmountChanged(s, value).error.None?
    ensures !AllDigits(value) ==> AmountChanged(s, value) == s
    ensures AllDigits(value) ==>
      AmountChanged(s, value) == s.(inputs := s.inputs.(amount := value), error := None)
  {
  }

  /** A preset amount reads back as itself when the form is validated. */
  lemma QuickAmountReadsBack(s: FormState, value: nat)
    ensures AllDigits(QuickAmount(s, value).inputs.amount)
    ensures DigitsValue(QuickAmount(s, value).inputs.amount) == value
  {
    NatTextRoundTrip(value);
  }

  /** A refused deposit or withdrawal only sets the error; no API call is made. */
  lemma RefusalOnlySetsError(s: FormState, env: MerchantEnv, outcome: CreateOutcome,
                             balance: Option<real>, updateError: Option<string>)
    requires ValidForm(s)
    ensures ValidateDeposit(s.inputs).Some? ==>
      DepositSubmitted(s, env, outcome) == s.(error := Some(Invalid(ValidateDeposit(s.inputs).value)))
    ensures ValidateWithdrawal(s.inputs, balance).Some? ==>
      WithdrawalSubmitted(s, balance, outcome, updateError) ==
      s.(error := Some(Invalid(ValidateWithdrawal(s.inputs, balance).value)))
  {
  }

  /**
   * An accepted UPI deposit sends the browser to the app's deep link for the
   * new deposit, and polling starts with the amount of the field.
   */
  lemma UpiDepositRedirects(s: FormState, env: MerchantEnv, id: string)
    requires ValidForm(s) && ValidateDeposit(s.inputs).None? && s.inputs.paymentMethod == "UPI"
    ensures var t := DepositSubmitted(s, env, Created(id));
      t.redirect == Some(PaymentLink(env, id, s.inputs.amount, s.inputs.selectedUpiApp)) &&
      t.polling && t.pollAmount == DigitsValue(s.inputs.amount) && t.paymentStatus == Processing &&
      t.credits == s.credits
  {
  }

  /** Submitting a deposit never credits anything by itself; only polling does. */
  lemma DepositCreditsOnlyThroughPolling(s: FormState, env: MerchantEnv, outcome: CreateOutcome)
    requires ValidForm(s)
    ensures DepositSubmitted(s, env, outcome).credits == s.credits
    ensures DepositSubmitted(s, env, outcome).polling <==>
      s.polling || (outcome.Created? && ValidateDeposit(s.inputs).None?)
  {
  }

  /**
   * A deposit that the interval sees completed reports `+amount` once, with
   * the amount the deposit was submitted with.
   */
  lemma DepositThenCompletionCredits(s: FormState, env: MerchantEnv, id: string,
                                     polls: seq<PollResult>)
    requires ValidForm(s) && ValidateDeposit(s.inputs).None?
    requires FirstTerminal(polls).Some? && polls[FirstTerminal(polls).value] == Reported("completed")
    ensures Polled(DepositSubmitted(s, env, Created(id)), polls, None).credits ==
            s.credits + [DigitsValue(s.inputs.amount) as int]
    ensures Polled(DepositSubmitted(s, env, Created(id)), polls, None).paymentStatus == Succeeded
  {
    var t := DepositSubmitted(s, env, Created(id));
    CreditedOnceOnCompletion(PollerOf(t), polls, t.pollAmount, None);
    RunIsFirstTerminal(PollerOf(t), polls, t.pollAmount, None);
  }

  /**
   * A successful withdrawal reports `-amount` through `onSuccess`; any other
   * outcome reports nothing.
   */
  lemma WithdrawalReportsNegativeAmount(s: FormState, balance: Option<real>, outcome: CreateOutcome,
                                        updateError: Option<string>)
    requires ValidForm(s)
    ensures var t := WithdrawalSubmitted(s, balance, outcome, updateError);
      t.credits == s.credits + [-(DigitsValue(s.inputs.amount) as int)] ||
      t.credits == s.credits
    ensures var t := WithdrawalSubmitted(s, balance, outcome, updateError);
      t.credits != s.credits <==>
      ValidateWithdrawal(s.inputs, balance).None? && outcome.Created? && updateError.None?
  {
  }

  // ---------------------------------------------------------------- the component

  /**
   * The component.  Its nine text inputs, each a `useState` of its own in
   * the source, are held together as one FormInputs record.
   */
  class Form {
    var inputs: FormInputs
    var error: Option<Notice>
    var processing: bool
    var paymentStatus: PayStatus
    var redirect: Option<Upi.Link>
    var polling: bool
    var pollAmount: nat
    var credits: seq<int>

    function State(): FormState
      reads this
    {
      FormState(inputs, error, processing, paymentStatus, redirect, polling, pollAmount, credits)
    }

    ghost predicate Valid()
      reads this
    {
      ValidForm(State())
    }

    constructor ()
      ensures Valid() && State() == InitialForm()
    {
      inputs := FormInputs("", "INR", "UPI", "", "", "", "", "", "");
      error := None;
      processing := false;
      paymentStatus := NoStatus;
      redirect := None;
      polling := false;
      pollAmount := 0;
      credits := [];
    }

    method HandleAmountChange(value: string)
      requires Valid()
      modifies this
      ensures Valid() && State() == AmountChanged(old(State()), value)
    {
      if value == "" || (|value| > 0 && AllDigits(value)) {
        inputs := inputs.(amount := value);
        error := None;
      }
    }

    method HandleQuickAmount(value: nat)
      requires Valid()
      modifies this
      ensures Valid() && State() == QuickAmount(old(State()), value)
    {
      inputs := inputs.(amount := NatText(value));
      error := None;
    }

    method EditFields(newSourceCurrency: string, newPaymentMethod: string, newUpiApp: string,
                      newBankName: string, newAccountNumber: string, newIfscCode: string,
                      newHolder: string, newUpiId: string)
      requires Valid()
      modifies this
      ensures Valid()
      ensures State() == FieldsEdited(old(State()), newSourceCurrency, newPaymentMethod, newUpiApp,
                                      newBankName, newAccountNumber, newIfscCode, newHolder, newUpiId)
    {
      inputs := FormInputs(inputs.amount, newSourceCurrency, newPaymentMethod, newUpiApp, newBankName,
                           newAccountNumber, newIfscCode, newHolder, newUpiId);
    }

    method HandleDeposit(env: MerchantEnv, outcome: CreateOutcome)
      requires Valid()
      modifies this
      ensures Valid() && State() == DepositSubmitted(old(State()), env, outcome)
    {
      var refusal := ValidateDeposit(inputs);
      if refusal.Some? {
        error := Some(Invalid(refusal.value));
        return;
      }
      SendDeposit(env, outcome);
    }

    /** The part of handleDeposit after validation. */
    method SendDeposit(env: MerchantEnv, outcome: CreateOutcome)
      requires Valid()
      modifies this
      ensures Valid() && State() == DepositSent(old(State()), env, outcome)
    {
      var f := inputs;
      processing := true;
      error := None;
      paymentStatus := Processing;
      match outcome {
        case Created(id) =>
          if f.paymentMethod == "UPI" {
            redirect := Some(PaymentLink(env, id, f.amount, f.selectedUpiApp));
          } else if f.paymentMethod == "BANK" {
            paymentStatus := BankDetails;
          }
          polling := true;
          pollAmount := DigitsValue(f.amount);
        case NoRecord =>
        case Threw(message) =>
          paymentStatus := Failed;
          error := Some(Text(ErrorText(message, PaymentFailedText)));
      }
      processing := false;
    }

    /** The interval callback, once per answer of the status check, in order. */
    method PollPaymentStatus(polls: seq<PollResult>, updateError: Option<string>)
      requires Valid()
      modifies this
      ensures Valid() && State() == Polled(old(State()), polls, updateError)
    {
      ghost var start := PollerOf(State());
      var k := 0;
      while k < |polls|
        invariant k <= |polls|
        invariant inputs == old(inputs) && pollAmount == old(pollAmount)
        invariant processing == old(processing) && redirect == old(redirect)
        invariant Run(PollerOf(State()), polls[k..], pollAmount, updateError) ==
                  Run(start, polls, pollAmount, updateError)
      {
        assert polls[k..][1..] == polls[k + 1..];
        PollOnce(polls[k], updateError);
        k := k + 1;
      }
      assert polls[k..] == [];
    }

    /** One run of the interval callback, answered by `p`. */
    method PollOnce(p: PollResult, updateError: Option<string>)
      modifies this
      ensures PollerOf(State()) == Tick(PollerOf(old(State())), p, pollAmount, updateError)
      ensures inputs == old(inputs) && pollAmount == old(pollAmount)
      ensures processing == old(processing) && redirect == old(redirect)
    {
      if polling {
        match p {
          case CheckThrew =>
            polling := false;
            paymentStatus := Failed;
            error := Some(Text(StatusCheckErrorText));
          case Reported(status) =>
            if status == "completed" {
              polling := false;
              paymentStatus := Succeeded;
              if updateError.None? {
                credits := credits + [pollAmount];
              } else {
                paymentStatus := Failed;
                error := Some(Text(StatusCheckErrorText));
              }
            } else if status == "failed" {
              polling := false;
              paymentStatus := Failed;
              error := Some(Text(PaymentFailedText));
            }
        }
      }
    }

    method HandleWithdrawal(balance: Option<real>, outcome: CreateOutcome, updateError: Option<string>)
      requires Valid()
      modifies this
      ensures Valid() && State() == WithdrawalSubmitted(old(State()), balance, outcome, updateError)
    {
      var f := inputs;
      var refusal := ValidateWithdrawal(f, balance);
      if refusal.Some? {
        error := Some(Invalid(refusal.value));
        return;
      }
      processing := true;
      error := None;
      paymentStatus := Processing;
      match outcome {
        case Created(_) =>
          paymentStatus := Succeeded;
          if updateError.None? {
            credits := credits + [-(DigitsValue(f.amount) as int)];
          } else {
            paymentStatus := Failed;
            error := Some(Text(ErrorText(updateError.value, WithdrawalFailedText)));
          }
        case NoRecord =>
        case Threw(message) =>
          paymentStatus := Failed;
          error := Some(Text(ErrorText(message, WithdrawalFailedText)));
      }
      processing := false;
    }
  }
}
