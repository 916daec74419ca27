/**
 * The wallet bookkeeping of server.js: the `payments` map of deposit records
 * and the `wallets` map of per-user, per-currency balances, as the
 * create-deposit, withdraw and payment-status handlers read and change them.
 *
 * Each handler is a pure step on a ServerState value returning the new state
 * and the response; the class WalletServer holds the two maps as fields and
 * updates them in place to match.  The payment id, the database insert, the
 * payment processors' status answers and the merchant settings are inputs.
 */
module Server {
  import opened Wrappers
  import opened Numeric
  import Upi

  /** SUPPORTED_CURRENCIES.crypto */
  const CryptoCurrencies: seq<string> := ["BTC", "ETH", "USDT", "USDC"]

  /** A wallet entry: an integer amount, or NaN. */
  type JsNum = JsNumber<int>

  /** JavaScript truthiness of a number: neither 0 nor NaN. */
  predicate Truthy(n: JsNum) {
    n.Num? && n.value != 0
  }

  /** The `metadata` object the UPI and crypto processors read; create-deposit never sets it. */
  datatype Metadata = Metadata(upiApp: string, email: string)

  /**
   * A payment record.  `method`, `cryptoAmount` and `metadata` are read by
   * the handlers but are not among the fields create-deposit writes (`method`
   * is `checkMethod` here, `method` being a Dafny keyword); None is
   * `undefined`.
   */
  datatype PaymentRecord = PaymentRecord(
    id: string,
    userId: string,
    amount: int,
    sourceCurrency: string,
    targetCurrency: string,
    paymentMethod: string,
    status: string,
    upiApp: string,
    bankName: string,
    checkMethod: Option<string>,   // `method`
    cryptoAmount: Option<int>,
    metadata: Option<Metadata>)

  type Wallet = map<string, JsNum>

  datatype ServerState = ServerState(payments: map<string, PaymentRecord>, wallets: map<string, Wallet>)

  /** `wallets.get(userId) || {}` */
  function WalletOf(st: ServerState, userId: string): Wallet {
    if userId in st.wallets then st.wallets[userId] else map[]
  }

  /** The server's environment: merchant and bank settings, and `encodeURIComponent`. */
  datatype ServerEnv = ServerEnv(
    merchantUpiId: string,
    merchantName: string,
    encode: string -> string,
    bankAccountName: string,
    bankAccountNumber: string,
    bankIfscCode: string,
    bankName: string)

  // ---------------------------------------------------------------- generateUPIUrl

  /** The scheme switch of generateUPIUrl. */
  function ServerScheme(upiApp: string): (scheme: string)
    ensures scheme == "upi://pay" <==> upiApp != "gpay" && upiApp != "phonepe" && upiApp != "paytm"
    ensures upiApp == "gpay" ==> scheme == "tez://upi/pay"
    ensures upiApp == "phonepe" ==> scheme == "phonepe://pay"
    ensures upiApp == "paytm" ==> scheme == "paytmmp://pay"
  {
    match upiApp
    case "gpay" => "tez://upi/pay"
    case "phonepe" => "phonepe://pay"
    case "paytm" => "paytmmp://pay"
    case _ => "upi://pay"
  }

  /** The TypeError of `payment.metadata.upiApp` on a record without metadata. */
  const MetadataTypeError: string := "Cannot read properties of undefined (reading 'upiApp')"

  /** The six parameters of the server's UPI link, before the scheme is chosen. */
  function UpiQuery(env: ServerEnv, payment: PaymentRecord): seq<Upi.Param> {
    [Upi.Param("pa", env.merchantUpiId),
     Upi.Param("pn", env.encode(env.merchantName)),
     Upi.Param("tn", env.encode("Payment for order " + payment.id)),
     Upi.Param("am", IntText(payment.amount)),
     Upi.Param("cu", payment.sourceCurrency),
     Upi.Param("tr", payment.id)]
  }

  /** generateUPIUrl: the query is built first, then `payment.metadata.upiApp` picks the scheme. */
  function GenerateUpiUrl(env: ServerEnv, payment: PaymentRecord): Result<Upi.Link> {
    match payment.metadata
    case None => Err(MetadataTypeError)
    case Some(m) => Ok(Upi.Link(ServerScheme(m.upiApp), UpiQuery(env, payment)))
  }

  /**
   * The parameters are pa, pn, tn, am, cu, tr in that order; the note and
   * the payee name go through `encodeURIComponent`, the amount is the
   * record's amount and the last parameter is the payment id.
   */
  lemma UpiQueryParams(env: ServerEnv, payment: PaymentRecord)
    ensures var query := UpiQuery(env, payment);
      Upi.Keys(query) == ["pa", "pn", "tn", "am", "cu", "tr"] &&
      Upi.Lookup(query, "pa") == Some(env.merchantUpiId) &&
      Upi.Lookup(query, "pn") == Some(env.encode(env.merchantName)) &&
      Upi.Lookup(query, "tn") == Some(env.encode("Payment for order " + payment.id)) &&
      Upi.Lookup(query, "am") == Some(IntText(payment.amount)) &&
      Upi.Lookup(query, "cu") == Some(payment.sourceCurrency) &&
      Upi.Lookup(query, "tr") == Some(payment.id)
  {
    UpiQueryKeys(env, payment);
    UpiQueryLookups(env, payment);
  }

  /** The server link's parameter names, in order. */
  lemma UpiQueryKeys(env: ServerEnv, payment: PaymentRecord)
    ensures Upi.Keys(UpiQuery(env, payment)) == ["pa", "pn", "tn", "am", "cu", "tr"]
  {
    var ks := Upi.Keys(UpiQuery(env, payment));
    assert ks[0] == "pa" && ks[1] == "pn" && ks[2] == "tn";
    assert ks[3] == "am" && ks[4] == "cu" && ks[5] == "tr";
  }

  /** The six parameter names of the server link are distinct. */
  lemma UpiQueryKeysDistinct(env: ServerEnv, payment: PaymentRecord)
    ensures var query := UpiQuery(env, payment);
      forall i, j :: 0 <= i < j < |query| ==> query[i].key != query[j].key
  {
    var query := UpiQuery(env, payment);
    assert query[0].key[1] != query[1].key[1];
    assert query[2].key[1] != query[5].key[1];
    assert forall i, j :: 0 <= i < j < |query| && !(i == 0 && j == 1) && !(i == 2 && j == 5) ==>
      query[i].key[0] != query[j].key[0];
  }

  /** The value found under each of the server link's names. */
  lemma UpiQueryLookups(env: ServerEnv, payment: PaymentRecord)
    ensures var query := UpiQuery(env, payment);
      Upi.Lookup(query, "pa") == Some(env.merchantUpiId) &&
      Upi.Lookup(query, "pn") == Some(env.encode(env.merchantName)) &&
      Upi.Lookup(query, "tn") == Some(env.encode("Payment for order " + payment.id)) &&
      Upi.Lookup(query, "am") == Some(IntText(payment.amount)) &&
      Upi.Lookup(query, "cu") == Some(payment.sourceCurrency) &&
      Upi.Lookup(query, "tr") == Some(payment.id)
  {
    var query := UpiQuery(env, payment);
    UpiQueryKeysDistinct(env, payment);
    Upi.LookupFindsEachParam(query, 0);
    Upi.LookupFindsEachParam(query, 1);
    Upi.LookupFindsEachParam(query, 2);
    Upi.LookupFindsEachParam(query, 3);
    Upi.LookupFindsEachParam(query, 4);
    Upi.LookupFindsEachParam(query, 5);
  }

  /** A record with metadata gets the link of its app; a record without metadata throws. */
  lemma UpiUrlScheme(env: ServerEnv, payment: PaymentRecord)
    ensures payment.metadata.None? ==> GenerateUpiUrl(env, payment) == Err(MetadataTypeError)
    ensures payment.metadata.Some? ==>
      GenerateUpiUrl(env, payment) ==
      Ok(Upi.Link(ServerScheme(payment.metadata.value.upiApp), UpiQuery(env, payment)))
  {
  }

  // ---------------------------------------------------------------- create-deposit

  /** The request body; "" and 0 are the falsy values, `targetCurrency` may be absent. */
  datatype DepositRequest = DepositRequest(
    amount: int,
    sourceCurrency: string,
    targetCurrency: Option<string>,
    paymentMethod: string,
    userId: string,
    upiApp: string,
    bankName: string)

  datatype BankDetails = BankDetails(accountName: string, accountNumber: string, ifscCode: string,
                                     bankName: string, reference: string)

  /** What the processor of the payment method adds to the response. */
  datatype ProcessorResult = PaymentUrl(url: Upi.Link) | BankTransfer(bankDetails: BankDetails)

  datatype DepositResponse =
    | MissingFields                                          // 400 'Missing required fields'
    | DepositCreated(paymentId: string, result: ProcessorResult)
    | DepositFailed(message: string)                         // 500 error.message

  const CardError: string := "stripe is not defined"
  const CryptoError: string := "moonpay is not defined"
  const UnsupportedMethodError: string := "Unsupported payment method"

  /** `!amount || !sourceCurrency || !paymentMethod || !userId` */
  predicate MissingDepositField(req: DepositRequest) {
    req.amount == 0 || req.sourceCurrency == "" || req.paymentMethod == "" || req.userId == ""
  }

  /** The record create-deposit stores. */
  function NewDeposit(req: DepositRequest, paymentId: string): (p: PaymentRecord)
    ensures p.status == "pending" && p.id == paymentId
    ensures p.targetCurrency == (if req.targetCurrency.Some? then req.targetCurrency.value else "BTC")
    ensures p.checkMethod.None? && p.cryptoAmount.None? && p.metadata.None?
  {
    PaymentRecord(paymentId, req.userId, req.amount, req.sourceCurrency, req.targetCurrency.GetOr("BTC"),
                  req.paymentMethod, "pending", req.upiApp, req.bankName, None, None, None)
  }

  /**
   * The `switch (paymentMethod)`.  The card and crypto processors name the
   * clients `stripe` and `moonpay`, which server.js never declares.
   */
  function ProcessPayment(env: ServerEnv, payment: PaymentRecord): Result<ProcessorResult> {
    match payment.paymentMethod
    case "UPI" =>
      (match GenerateUpiUrl(env, payment)
       case Ok(link) => Ok(PaymentUrl(link))
       case Err(message) => Err(message))
    case "BANK" =>
      Ok(BankTransfer(BankDetails(env.bankAccountName, env.bankAccountNumber, env.bankIfscCode,
                                  env.bankName, payment.id)))
    case "CARD" => Err(CardError)
    case "BTC" => Err(CryptoError)
    case "ETH" => Err(CryptoError)
    case "USDT" => Err(CryptoError)
    case "USDC" => Err(CryptoError)
    case _ => Err(UnsupportedMethodError)
  }

  /**
   * The create-deposit handler.  `paymentId` is the fresh uuid and
   * `insertError` the error the database insert returned, if any.
   */
  function DepositStep(st: ServerState, req: DepositRequest, paymentId: string, env: ServerEnv,
                       insertError: Option<string>): (ServerState, DepositResponse) {
    if MissingDepositField(req) then (st, MissingFields)
    else
      var payment := NewDeposit(req, paymentId);
      var st' := st.(payments := st.payments[paymentId := payment]);
      match ProcessPayment(env, payment)
      case Err(message) => (st', DepositFailed(message))
      case Ok(result) =>
        if insertError.Some? then (st', DepositFailed(insertError.value))
        else (st', DepositCreated(paymentId, result))
  }

  /** A request with a falsy required field is refused with 400 and stores nothing. */
  lemma MissingFieldsStoreNothing(st: ServerState, req: DepositRequest, paymentId: string, env: ServerEnv,
                                  insertError: Option<string>)
    ensures MissingDepositField(req) <==> DepositStep(st, req, paymentId, env, insertError).1 == MissingFields
    ensures MissingDepositField(req) ==> DepositStep(st, req, paymentId, env, insertError).0 == st
  {
  }

  /**
   * Otherwise the pending record is stored before the method is dispatched,
   * so it stays in the map whatever the processor or the insert does; the
   * wallets are untouched.
   */
  lemma DepositStoresPendingRecord(st: ServerState, req: DepositRequest, paymentId: string, env: ServerEnv,
                                   insertError: Option<string>)
    requires !MissingDepositField(req)
    ensures var st' := DepositStep(st, req, paymentId, env, insertError).0;
      st'.payments == st.payments[paymentId := NewDeposit(req, paymentId)] &&
      st'.wallets == st.wallets &&
      st'.payments[paymentId].status == "pending"
  {
  }

  /**
   * Only a bank transfer can succeed: a UPI deposit always fails with the
   * metadata TypeError, card and crypto deposits with a ReferenceError, any
   * other method as unsupported.
   */
  lemma OnlyBankDepositsSucceed(st: ServerState, req: DepositRequest, paymentId: string, env: ServerEnv,
                                insertError: Option<string>)
    requires !MissingDepositField(req)
    ensures var r := DepositStep(st, req, paymentId, env, insertError).1;
      (r.DepositCreated? <==> req.paymentMethod == "BANK" && insertError.None?) &&
      (req.paymentMethod == "UPI" ==> r == DepositFailed(MetadataTypeError)) &&
      (req.paymentMethod == "CARD" ==> r == DepositFailed(CardError)) &&
      (req.paymentMethod in CryptoCurrencies ==> r == DepositFailed(CryptoError)) &&
      (req.paymentMethod !in CryptoCurrencies + ["UPI", "BANK", "CARD"] ==> r == DepositFailed(UnsupportedMethodError))
    ensures var r := DepositStep(st, req, paymentId, env, insertError).1;
      r.DepositCreated? ==>
        r.paymentId == paymentId && r.result.BankTransfer? && r.result.bankDetails.reference == paymentId
  {
  }

  // ---------------------------------------------------------------- withdraw

  datatype WithdrawRequest = WithdrawRequest(
    amount: int,
    currency: string,
    userId: string,
    withdrawalAddress: string,
    withdrawalMethod: string)

  datatype WithdrawResponse =
    | MissingParameters                                             // 400 'Missing required parameters'
    | InsufficientBalance                                           // 400 'Insufficient balance'
    | WithdrawalAccepted(withdrawalId: string, status: string, estimatedTime: string)

  predicate MissingWithdrawParameter(req: WithdrawRequest) {
    req.amount == 0 || req.currency == "" || req.userId == "" || req.withdrawalAddress == ""
  }

  /** `!userWallet[currency] || userWallet[currency] < amount` */
  predicate Uncovered(w: Wallet, currency: string, amount: int) {
    currency !in w || !Truthy(w[currency]) || w[currency].value < amount
  }

  /** processCryptoWithdrawal or processFiatWithdrawal, both placeholders. */
  function EstimatedTime(currency: string): (t: string)
    ensures currency in CryptoCurrencies <==> t == "10-30 minutes"
    ensures currency !in CryptoCurrencies ==> t == "1-3 business days"
  {
    if currency in CryptoCurrencies then "10-30 minutes" else "1-3 business days"
  }

  /** The withdraw handler; `withdrawalId` is the fresh uuid. */
  function WithdrawStep(st: ServerState, req: WithdrawRequest, withdrawalId: string): (ServerState, WithdrawResponse) {
    if MissingWithdrawParameter(req) then (st, MissingParameters)
    else
      var w := WalletOf(st, req.userId);
      if Uncovered(w, req.currency, req.amount) then (st, InsufficientBalance)
      else
        var w' := w[req.currency := Num(w[req.currency].value - req.amount)];
        (st.(wallets := st.wallets[req.userId := w']),
         WithdrawalAccepted(withdrawalId, "pending", EstimatedTime(req.currency)))
  }

  /**
   * A withdrawal is accepted exactly when every parameter is present and the
   * wallet holds a non-zero number of that currency no smaller than the
   * amount; an amount equal to the balance is allowed.
   */
  lemma WithdrawAcceptance(st: ServerState, req: WithdrawRequest, withdrawalId: string)
    ensures var r := WithdrawStep(st, req, withdrawalId).1;
      (r == MissingParameters <==> MissingWithdrawParameter(req)) &&
      (r.WithdrawalAccepted? <==>
        !MissingWithdrawParameter(req) && req.userId in st.wallets && req.currency in st.wallets[req.userId] &&
        st.wallets[req.userId][req.currency].Num? && st.wallets[req.userId][req.currency].value != 0 &&
        req.amount <= st.wallets[req.userId][req.currency].value)
    ensures WithdrawStep(st, req, withdrawalId).1.WithdrawalAccepted? ==>
      WithdrawStep(st, req, withdrawalId).1 == WithdrawalAccepted(withdrawalId, "pending", EstimatedTime(req.currency))
  {
  }

  /**
   * An accepted withdrawal lowers that one entry by exactly the amount:
   * every other currency of the user and every other user is unchanged, and
   * the payments map is untouched.  A refused one changes nothing.
   */
  lemma WithdrawDebitsExactly(st: ServerState, req: WithdrawRequest, withdrawalId: string)
    ensures var (st', r) := WithdrawStep(st, req, withdrawalId);
      !r.WithdrawalAccepted? ==> st' == st
    ensures var (st', r) := WithdrawStep(st, req, withdrawalId);
      r.WithdrawalAccepted? ==>
        st'.payments == st.payments &&
        st'.wallets.Keys == st.wallets.Keys &&
        st'.wallets[req.userId][req.currency] == Num(st.wallets[req.userId][req.currency].value - req.amount) &&
        st'.wallets[req.userId].Keys == st.wallets[req.userId].Keys &&
        (forall c :: c in st.wallets[req.userId] && c != req.currency ==>
           st'.wallets[req.userId][c] == st.wallets[req.userId][c]) &&
        (forall u :: u in st.wallets && u != req.userId ==> st'.wallets[u] == st.wallets[u])
  {
  }

  /** An accepted withdrawal never leaves the entry negative: the balance check covers the amount. */
  lemma WithdrawKeepsCoveredEntriesNonNegative(st: ServerState, req: WithdrawRequest, withdrawalId: string)
    requires WithdrawStep(st, req, withdrawalId).1.WithdrawalAccepted?
    ensures WithdrawStep(st, req, withdrawalId).0.wallets[req.userId][req.currency].value >= 0
  {
  }

  /**
   * Nothing refuses a negative amount: it is truthy, and no positive balance
   * is below it, so "withdrawing" -50 raises the entry by 50.
   */
  lemma NegativeWithdrawalCredits(st: ServerState, req: WithdrawRequest, withdrawalId: string)
    requires req.amount < 0 && req.currency != "" && req.userId != "" && req.withdrawalAddress != ""
    requires req.userId in st.wallets && req.currency in st.wallets[req.userId]
    requires st.wallets[req.userId][req.currency].Num? && st.wallets[req.userId][req.currency].value > 0
    ensures WithdrawStep(st, req, withdrawalId).1.WithdrawalAccepted?
    ensures WithdrawStep(st, req, withdrawalId).0.wallets[req.userId][req.currency].value >
            st.wallets[req.userId][req.currency].value
  {
  }

  // ---------------------------------------------------------------- payment-status

  datatype StatusResponse =
    | PaymentNotFound                                   // 404 'Payment not found'
    | StatusReport(status: string, payment: PaymentRecord)
    | StatusFailed(message: string)                     // 500 error.message || 'Failed to check status'

  const StatusFallback: string := "Failed to check status"

  /**
   * The `switch (payment.method)`.  `upiCheck` and `cryptoCheck` are what
   * checkUPIStatus and checkCryptoStatus return or throw; any other value of
   * `method`, `undefined` included, reports the stored status.
   */
  function CheckedStatus(p: PaymentRecord, upiCheck: Result<string>, cryptoCheck: Result<string>): (r: Result<string>)
    ensures p.checkMethod != Some("UPI") && p.checkMethod != Some("CRYPTO") ==> r == Ok(p.status)
  {
    match p.checkMethod
    case Some("UPI") => upiCheck
    case Some("CRYPTO") => cryptoCheck
    case _ => Ok(p.status)
  }

  /** `(userWallet[currency] || 0) + payment.cryptoAmount`; undefined turns the sum into NaN. */
  function Credited(w: Wallet, currency: string, cryptoAmount: Option<int>): JsNum {
    var base := if currency in w && Truthy(w[currency]) then w[currency].value else 0;
    match cryptoAmount
    case Some(c) => Num(base + c)
    case None => NaN
  }

  /** The payment-status handler. */
  function StatusStep(st: ServerState, paymentId: string, upiCheck: Result<string>,
                      cryptoCheck: Result<string>): (ServerState, StatusResponse) {
    if paymentId !in st.payments then (st, PaymentNotFound)
    else
      var p := st.payments[paymentId];
      match CheckedStatus(p, upiCheck, cryptoCheck)
      case Err(message) => (st, StatusFailed(if message != "" then message else StatusFallback))
      case Ok(status) =>
        if status == "completed" && p.status != "completed" then
          var w := WalletOf(st, p.userId);
          var p' := p.(status := "completed");
          (ServerState(st.payments[paymentId := p'],
                       st.wallets[p.userId := w[p.targetCurrency := Credited(w, p.targetCurrency, p.cryptoAmount)]]),
           StatusReport(status, p'))
        else (st, StatusReport(status, p))
  }

  /** An unknown id is a 404 and changes nothing. */
  lemma UnknownPaymentNotFound(st: ServerState, paymentId: string, upiCheck: Result<string>,
                               cryptoCheck: Result<string>)
    ensures StatusStep(st, paymentId, upiCheck, cryptoCheck).1 == PaymentNotFound <==> paymentId !in st.payments
    ensures paymentId !in st.payments ==> StatusStep(st, paymentId, upiCheck, cryptoCheck).0 == st
  {
  }

  /**
   * The wallets change only when the processor reports "completed" for a
   * record not yet stored as completed; then exactly the record's target
   * currency of its user is credited and the record is stored as completed.
   */
  lemma CreditOnlyOnFirstCompletion(st: ServerState, paymentId: string, upiCheck: Result<string>,
                                    cryptoCheck: Result<string>)
    ensures var st' := StatusStep(st, paymentId, upiCheck, cryptoCheck).0;
      st'.wallets != st.wallets ==>
        paymentId in st.payments &&
        CheckedStatus(st.payments[paymentId], upiCheck, cryptoCheck) == Ok("completed") &&
        st.payments[paymentId].status != "completed"
    ensures var st' := StatusStep(st, paymentId, upiCheck, cryptoCheck).0;
      paymentId in st.payments &&
      CheckedStatus(st.payments[paymentId], upiCheck, cryptoCheck) == Ok("completed") &&
      st.payments[paymentId].status != "completed" ==>
        var p := st.payments[paymentId];
        var w := WalletOf(st, p.userId);
        st'.payments[paymentId] == p.(status := "completed") &&
        st'.wallets == st.wallets[p.userId := w[p.targetCurrency := Credited(w, p.targetCurrency, p.cryptoAmount)]]
  {
  }

  /** A second check of the same payment, whatever the processor says, credits nothing. */
  lemma RepeatCheckCreditsNothing(st: ServerState, paymentId: string, upiCheck: Result<string>,
                                  cryptoCheck: Result<string>, upiCheck2: Result<string>,
                                  cryptoCheck2: Result<string>)
    requires StatusStep(st, paymentId, upiCheck, cryptoCheck).0.wallets != st.wallets
    ensures var st1 := StatusStep(st, paymentId, upiCheck, cryptoCheck).0;
      StatusStep(st1, paymentId, upiCheck2, cryptoCheck2).0 == st1
  {
    CreditOnlyOnFirstCompletion(st, paymentId, upiCheck, cryptoCheck);
  }

  /** A record completed without a `cryptoAmount` credits NaN, which no later withdrawal can spend. */
  lemma CreditWithoutAmountIsNaN(w: Wallet, currency: string, amount: int)
    ensures Credited(w, currency, None) == NaN
    ensures Uncovered(w[currency := Credited(w, currency, None)], currency, amount)
  {
  }

  // ---------------------------------------------------------------- the records the handlers create

  /** Every record is as create-deposit wrote it: pending, with no `method`, `cryptoAmount` or `metadata`. */
  predicate AsCreated(st: ServerState) {
    forall id :: id in st.payments ==>
      st.payments[id].status == "pending" && st.payments[id].checkMethod.None? &&
      st.payments[id].cryptoAmount.None? && st.payments[id].metadata.None?
  }

  /** All three handlers keep every record as created. */
  lemma HandlersKeepRecordsAsCreated(st: ServerState, req: DepositRequest, paymentId: string, env: ServerEnv,
                                     insertError: Option<string>, wreq: WithdrawRequest, withdrawalId: string,
                                     checkId: string, upiCheck: Result<string>, cryptoCheck: Result<string>)
    requires AsCreated(st)
    ensures AsCreated(DepositStep(st, req, paymentId, env, insertError).0)
    ensures AsCreated(WithdrawStep(st, wreq, withdrawalId).0)
    ensures AsCreated(StatusStep(st, checkId, upiCheck, cryptoCheck).0)
  {
    if checkId in st.payments {
      assert CheckedStatus(st.payments[checkId], upiCheck, cryptoCheck) == Ok("pending");
    }
  }

  /**
   * Because the status check switches on `method`, which create-deposit
   * never sets, it reports the stored "pending" and no deposit is ever
   * credited: the status handler never changes any state.
   */
  lemma StatusCheckNeverCredits(st: ServerState, paymentId: string, upiCheck: Result<string>,
                                cryptoCheck: Result<string>)
    requires AsCreated(st)
    ensures StatusStep(st, paymentId, upiCheck, cryptoCheck).0 == st
    ensures paymentId in st.payments ==>
      StatusStep(st, paymentId, upiCheck, cryptoCheck).1 == StatusReport("pending", st.payments[paymentId])
  {
    if paymentId in st.payments {
      assert CheckedStatus(st.payments[paymentId], upiCheck, cryptoCheck) == Ok("pending");
    }
  }

  // ---------------------------------------------------------------- the server

  class WalletServer {
    var payments: map<string, PaymentRecord>
    var wallets: map<string, Wallet>

    function State(): ServerState
      reads this
    {
      ServerState(payments, wallets)
    }

    constructor ()
      ensures payments == map[] && wallets == map[]
    {
      payments := map[];
      wallets := map[];
    }

    method CreateDeposit(req: DepositRequest, paymentId: string, env: ServerEnv, insertError: Option<string>)
      returns (response: DepositResponse)
      modifies this
      ensures State() == DepositStep(old(State()), req, paymentId, env, insertError).0
      ensures response == DepositStep(old(State()), req, paymentId, env, insertError).1
    {
      if MissingDepositField(req) {
        return MissingFields;
      }
      var payment := NewDeposit(req, paymentId);
      payments := payments[paymentId := payment];
      var result := ProcessPayment(env, payment);
      if result.Err? {
        return DepositFailed(result.message);
      }
      if insertError.Some? {
        return DepositFailed(insertError.value);
      }
      response := DepositCreated(paymentId, result.value);
    }

    method Withdraw(req: WithdrawRequest, withdrawalId: string) returns (response: WithdrawResponse)
      modifies this
      ensures State() == WithdrawStep(old(State()), req, withdrawalId).0
      ensures response == WithdrawStep(old(State()), req, withdrawalId).1
    {
      if MissingWithdrawParameter(req) {
        return MissingParameters;
      }
      var userWallet := if req.userId in wallets then wallets[req.userId] else map[];
      if Uncovered(userWallet, req.currency, req.amount) {
        return InsufficientBalance;
      }
      var estimatedTime := EstimatedTime(req.currency);
      userWallet := userWallet[req.currency := Num(userWallet[req.currency].value - req.amount)];
      wallets := wallets[req.userId := userWallet];
      response := WithdrawalAccepted(withdrawalId, "pending", estimatedTime);
    }

    method PaymentStatus(paymentId: string, upiCheck: Result<string>, cryptoCheck: Result<string>)
      returns (response: StatusResponse)
      modifies this
      ensures State() == StatusStep(old(State()), paymentId, upiCheck, cryptoCheck).0
      ensures response == StatusStep(old(State()), paymentId, upiCheck, cryptoCheck).1
    {
      if paymentId !in payments {
        return PaymentNotFound;
      }
      var payment := payments[paymentId];
      var checked := CheckedStatus(payment, upiCheck, cryptoCheck);
      if checked.Err? {
        return StatusFailed(if checked.message != "" then checked.message else StatusFallback);
      }
      var status := checked.value;
      if status == "completed" && payment.status != "completed" {
        var userWallet := if payment.userId in wallets then wallets[payment.userId] else map[];
        userWallet := userWallet[payment.targetCurrency :=
                                 Credited(userWallet, payment.targetCurrency, payment.cryptoAmount)];
        wallets := wallets[payment.userId := userWallet];
        payment := payment.(status := "completed");
        payments := payments[paymentId := payment];
      }
      response := StatusReport(status, payment);
    }
  }
}
