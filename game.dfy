/**
 * One in-browser game session of App.js: the balance ledger, the bet input,
 * the 25-card board and the round state machine (start, select, close,
 * reveal, reset) plus the top-up callback of the payment form.
 *
 * Each handler is given twice: as a pure transition on a SessionState value
 * (AfterStart, AfterSelect, ...), about which the lemmas speak, and as a
 * method of the class Session, whose fields the handler updates in place and
 * whose contract ties the new state to that transition.
 */
module Game {
  import opened Wrappers
  import opened Numeric
  import Multipliers

  const CardCount: nat := 25
  const DefaultBet: string := "10"
  const InitialBalance: real := 1000.0

  /** A card of the board; the multiplier is in hundredths, the colour is absent on blank cards. */
  datatype Card = Card(revealed: bool, hundredths: nat, color: Option<string>)

  /** The board fill before a round and after a reset: unrevealed, "0.00x", no colour. */
  const BlankCard: Card := Card(false, 0, None)

  function BlankBoard(): seq<Card> {
    seq(CardCount, _ => BlankCard)
  }

  datatype Status = Idle | Playing | Completed

  /** The text the session shows; the numbers of Won and FundsAdded are formatted by the UI. */
  datatype Message =
    | NoMessage                              // ''
    | InvalidBet                             // 'Please enter a valid bet amount'
    | InsufficientBalance                    // 'Insufficient balance'
    | BetterLuck                             // 'Better luck next time!'
    | Won(total: real, bet: real, win: real) // 'You Won <total>! (Bet: <bet> + Win: <win>)'
    | FundsAdded(amount: real)               // 'Successfully added <amount> to your balance!'

  /** Math.max(0, x) on a finite number. */
  function Max0(x: real): real {
    if x > 0.0 then x else 0.0
  }

  // ---------------------------------------------------------------- bet input

  predicate IsBetChar(c: char) {
    IsDigit(c) || c == '.'
  }

  predicate IsBetText(s: string) {
    forall i :: 0 <= i < |s| ==> IsBetChar(s[i])
  }

  /** The bet field's change filter: `value.replace(/[^0-9.]/g, '')`. */
  function FilterBet(s: string): (r: string)
    ensures |r| <= |s|
    ensures IsBetText(r)
  {
    if s == [] then [] else (if IsBetChar(s[0]) then [s[0]] else []) + FilterBet(s[1..])
  }

  /** The filter works character by character: it keeps the kept characters in their original order. */
  lemma {:induction false} FilterBetConcat(a: string, b: string)
    ensures FilterBet(a + b) == FilterBet(a) + FilterBet(b)
  {
    if a == [] {
      assert a + b == b;
    } else {
      var head := if IsBetChar(a[0]) then [a[0]] else [];
      assert (a + b)[0] == a[0];
      assert (a + b)[1..] == a[1..] + b;
      assert FilterBet(a + b) == head + FilterBet(a[1..] + b);
      FilterBetConcat(a[1..], b);
      assert FilterBet(a) == head + FilterBet(a[1..]);
    }
  }

  /** Every digit and every '.' survives the filter as often as it occurs; nothing else does. */
  lemma {:induction false} FilterBetCounts(s: string, c: char)
    ensures multiset(FilterBet(s))[c] == if IsBetChar(c) then multiset(s)[c] else 0
  {
    if s != [] {
      FilterBetCounts(s[1..], c);
      assert s == [s[0]] + s[1..];
      assert multiset(s) == multiset([s[0]]) + multiset(s[1..]);
      var head := if IsBetChar(s[0]) then [s[0]] else [];
      assert multiset(FilterBet(s)) == multiset(head) + multiset(FilterBet(s[1..]));
    }
  }

  /** Text made only of digits and dots passes unchanged, and only such text does. */
  lemma {:induction false} FilterBetFixes(s: string)
    ensures FilterBet(s) == s <==> IsBetText(s)
  {
    if s != [] && IsBetText(s) {
      assert IsBetText(s[1..]) by {
        forall i | 0 <= i < |s[1..]| ensures IsBetChar(s[1..][i]) {
          assert s[1..][i] == s[i + 1];
        }
      }
      FilterBetFixes(s[1..]);
    }
  }

  /** Filtering an already filtered string changes nothing. */
  lemma FilterBetIdempotent(s: string)
    ensures FilterBet(FilterBet(s)) == FilterBet(s)
  {
    FilterBetFixes(FilterBet(s));
  }

  // ---------------------------------------------------------------- the bet guard

  /** The bet text parses (parseFloat) to a positive number. */
  predicate BetParses(betAmount: string) {
    ParseDecimal(betAmount).Some? && ParseDecimal(betAmount).value > 0.0
  }

  function BetValue(betAmount: string): real
    requires BetParses(betAmount)
  {
    ParseDecimal(betAmount).value
  }

  /**
   * The two guards of initializeGame, with a bet that does not parse (NaN)
   * treated as invalid; see StartAsWritten for the guards as the source has
   * them. None means the round may start.
   */
  function StartCheck(betAmount: string, balance: real): (r: Option<Message>)
    ensures betAmount == "" ==> r == Some(InvalidBet)
    ensures r == Some(InvalidBet) <==> !BetParses(betAmount)
    ensures r == Some(InsufficientBalance) <==>
      BetParses(betAmount) && (BetValue(betAmount) > balance || balance <= 0.0)
    ensures r == None <==> BetParses(betAmount) && 0.0 < BetValue(betAmount) <= balance
    ensures r == None || r == Some(InvalidBet) || r == Some(InsufficientBalance)
  {
    match ParseDecimal(betAmount)
    case None => Some(InvalidBet)
    case Some(bet) =>
      if bet <= 0.0 then Some(InvalidBet)
      else if bet > balance || balance <= 0.0 then Some(InsufficientBalance)
      else None
  }

  // ---------------------------------------------------------------- the session

  /** Every state variable of the App component that the round handlers touch. */
  datatype SessionState = SessionState(
    balance: real,
    betAmount: string,
    cards: seq<Card>,
    selectedCard: Option<nat>,
    gameStatus: Status,
    message: Message,
    gameStarted: bool,
    showPopup: bool,
    showPayment: bool,
    selectedMultiplier: nat,
    scratchCardRevealed: bool)

  /**
   * What every reachable state satisfies: 25 cards, bet text from the filter,
   * a running round exactly while the status is playing, a parsed positive
   * bet while it runs, and a selection only while playing.
   */
  predicate ValidState(s: SessionState) {
    && |s.cards| == CardCount
    && IsBetText(s.betAmount)
    && (s.gameStarted <==> s.gameStatus == Playing)
    && (s.gameStarted ==> BetParses(s.betAmount))
    && (s.selectedCard.Some? ==> s.selectedCard.value < CardCount && s.gameStatus == Playing)
  }

  const InitialState: SessionState :=
    SessionState(InitialBalance, DefaultBet, BlankBoard(), None, Idle, NoMessage,
                 false, false, false, 0, false)

  /** The card dealt for one uniform draw: the table entry the walk picks, face down. */
  function DealtCard(r: real): Card {
    var e := Multipliers.Table[Multipliers.Pick(r)];
    Card(false, e.hundredths, Some(e.color))
  }

  /** One card per draw, in order. */
  function Deal(draws: seq<real>): (cards: seq<Card>)
    ensures |cards| == |draws|
  {
    seq(|draws|, i requires 0 <= i < |draws| => DealtCard(draws[i]))
  }

  /** initializeGame, given the 25 draws of Math.random. */
  function AfterStart(s: SessionState, draws: seq<real>): SessionState {
    match StartCheck(s.betAmount, s.balance)
    case Some(m) => s.(message := m)
    case None =>
      s.(balance := Max0(s.balance - BetValue(s.betAmount)),
         cards := Deal(draws),
         gameStarted := true,
         gameStatus := Playing,
         selectedCard := None,
         message := NoMessage)
  }

  /** handleCardSelect(index). */
  function AfterSelect(s: SessionState, index: nat): SessionState
    requires ValidState(s) && index < CardCount
  {
    if s.gameStatus != Playing || s.cards[index].revealed then s
    else s.(selectedCard := Some(index), showPopup := true)
  }

  /** handleClosePopup. */
  function AfterClose(s: SessionState): SessionState {
    s.(showPopup := false, selectedCard := None)
  }

  /** The amount a revealed multiplier wins on a bet: bet * m (m in hundredths). */
  function Winnings(bet: real, hundredths: nat): real {
    bet * hundredths as real / 100.0
  }

  /** The state after card i is turned face up and the round completes, before settlement. */
  function Completion(s: SessionState, i: nat): SessionState
    requires i < |s.cards|
  {
    s.(cards := s.cards[i := s.cards[i].(revealed := true)],
       selectedMultiplier := s.cards[i].hundredths,
       gameStatus := Completed,
       gameStarted := false,
       showPopup := false,
       selectedCard := None,
       scratchCardRevealed := false)
  }

  /** Settlement of a revealed multiplier m on a bet: nothing for 0.00x, else bet + bet*m. */
  function Settle(s: SessionState, bet: real, m: nat): SessionState {
    if m == 0 then s.(message := BetterLuck)
    else s.(balance := Max0(s.balance + (bet + Winnings(bet, m))),
            message := Won(bet + Winnings(bet, m), bet, Winnings(bet, m)))
  }

  /** handleReveal, the callback the scratch surface fires. */
  function AfterReveal(s: SessionState): SessionState
    requires ValidState(s)
  {
    match s.selectedCard
    case None => s
    case Some(i) => Settle(Completion(s, i), BetValue(s.betAmount), s.cards[i].hundredths)
  }

  /** resetGame. */
  function AfterReset(s: SessionState): SessionState {
    s.(gameStarted := false,
       gameStatus := Idle,
       cards := BlankBoard(),
       selectedMultiplier := 0,
       selectedCard := None,
       message := NoMessage,
       betAmount := DefaultBet,
       showPopup := false,
       scratchCardRevealed := false)
  }

  /** handlePaymentSuccess(amount): the signed amount the payment form reports. */
  function AfterPayment(s: SessionState, amount: real): SessionState {
    s.(balance := s.balance + amount,
       showPayment := false,
       showPopup := true,
       message := FundsAdded(amount))
  }

  /** The bet field's onChange; the field is disabled, so receives nothing, while a round runs. */
  function AfterBetInput(s: SessionState, input: string): SessionState {
    if s.gameStarted then s else s.(betAmount := FilterBet(input))
  }

  /** The balance as the header shows it: `Math.max(0, balance || 0)`. */
  function DisplayedBalance(balance: real): real {
    Max0(balance)
  }

  // ---------------------------------------------------------------- lemmas

  lemma InitialStateValid()
    ensures ValidState(InitialState)
  {
  }

  /** Every handler keeps the session invariant. */
  lemma TransitionsPreserveValid(s: SessionState, draws: seq<real>, index: nat, amount: real, input: string)
    requires ValidState(s) && |draws| == CardCount && index < CardCount
    ensures ValidState(AfterStart(s, draws))
    ensures ValidState(AfterSelect(s, index))
    ensures ValidState(AfterClose(s))
    ensures ValidState(AfterReveal(s))
    ensures ValidState(AfterReset(s))
    ensures ValidState(AfterPayment(s, amount))
    ensures ValidState(AfterBetInput(s, input))
  {
    StartKeepsValid(s, draws);
    RevealKeepsValid(s);
    ResetKeepsValid(s);
  }

  lemma ResetKeepsValid(s: SessionState)
    ensures ValidState(AfterReset(s))
  {
    assert IsBetText(DefaultBet) by {
      assert DefaultBet[0] == '1' && DefaultBet[1] == '0';
    }
  }

  lemma StartKeepsValid(s: SessionState, draws: seq<real>)
    requires ValidState(s) && |draws| == CardCount
    ensures ValidState(AfterStart(s, draws))
  {
    if StartCheck(s.betAmount, s.balance).None? {
      assert BetParses(s.betAmount);
    }
  }

  lemma RevealKeepsValid(s: SessionState)
    requires ValidState(s)
    ensures ValidState(AfterReveal(s))
  {
    if s.selectedCard.Some? {
      var i := s.selectedCard.value;
      var c := Completion(s, i);
      assert ValidState(c);
      assert ValidState(Settle(c, BetValue(s.betAmount), s.cards[i].hundredths));
    }
  }

  /** A refused start sets only the message: balance, cards, status and selection stay. */
  lemma StartRefused(s: SessionState, draws: seq<real>)
    requires !BetParses(s.betAmount) || BetValue(s.betAmount) > s.balance || s.balance <= 0.0
    ensures AfterStart(s, draws) == s.(message := AfterStart(s, draws).message)
    ensures AfterStart(s, draws).message ==
      if !BetParses(s.betAmount) then InvalidBet else InsufficientBalance
  {
  }

  /**
   * An accepted start debits the stake up front (the clamp at 0 never binds,
   * because the bet is at most the balance), deals 25 face-down cards and
   * starts the round with no selection and no message.
   */
  lemma StartAccepted(s: SessionState, draws: seq<real>)
    requires |draws| == CardCount
    requires BetParses(s.betAmount) && 0.0 < BetValue(s.betAmount) <= s.balance
    ensures var t := AfterStart(s, draws);
      && t.balance == Max0(s.balance - BetValue(s.betAmount)) == s.balance - BetValue(s.betAmount)
      && |t.cards| == CardCount
      && (forall i :: 0 <= i < CardCount ==> !t.cards[i].revealed && t.cards[i] == DealtCard(draws[i]))
      && t.gameStatus == Playing && t.gameStarted
      && t.selectedCard == None && t.message == NoMessage
      && t.betAmount == s.betAmount
  {
  }

  /** Selecting does nothing unless a round is playing and the card is face down. */
  lemma SelectGuard(s: SessionState, index: nat)
    requires ValidState(s) && index < CardCount
    ensures s.gameStatus != Playing || s.cards[index].revealed ==> AfterSelect(s, index) == s
    ensures s.gameStatus == Playing && !s.cards[index].revealed ==>
      AfterSelect(s, index).selectedCard == Some(index) && AfterSelect(s, index).cards == s.cards
    ensures s.gameStatus == Playing && !s.cards[index].revealed ==>
      AfterSelect(s, index) == s.(selectedCard := Some(index), showPopup := true)
  {
  }

  /**
   * The bet field stores the filtered text while no round runs and ignores
   * input while one does; the balance and the board never change.
   */
  lemma BetInputStoresFiltered(s: SessionState, input: string)
    ensures s.gameStarted ==> AfterBetInput(s, input) == s
    ensures !s.gameStarted ==> AfterBetInput(s, input) == s.(betAmount := FilterBet(input))
    ensures AfterBetInput(s, input).balance == s.balance && AfterBetInput(s, input).cards == s.cards
  {
  }

  /** Closing the popup clears the selection and leaves the cards and the balance alone. */
  lemma CloseKeepsBoard(s: SessionState)
    ensures AfterClose(s).selectedCard == None
    ensures AfterClose(s).cards == s.cards && AfterClose(s).balance == s.balance
  {
  }

  /**
   * Revealing with a selected card turns that card face up and no other,
   * completes the round, clears the selection, and settles the balance:
   * unchanged for 0.00x, otherwise credited with the stake plus the winnings
   * (bet + bet*m), clamped at 0. With no card selected, nothing changes.
   */
  lemma RevealSettles(s: SessionState)
    requires ValidState(s)
    ensures s.selectedCard.None? ==> AfterReveal(s) == s
    ensures s.selectedCard.Some? ==>
      var i := s.selectedCard.value;
      var t := AfterReveal(s);
      var m := s.cards[i].hundredths;
      var bet := BetValue(s.betAmount);
      && |t.cards| == |s.cards|
      && t.cards[i] == s.cards[i].(revealed := true)
      && (forall j :: 0 <= j < |s.cards| && j != i ==> t.cards[j] == s.cards[j])
      && t.gameStatus == Completed && t.selectedCard == None && !t.gameStarted
      && t.selectedMultiplier == m
      && (m == 0 ==> t.balance == s.balance && t.message == BetterLuck)
      && (m > 0 ==> t.balance == Max0(s.balance + bet + Winnings(bet, m)))
  {
  }

  /** Reset returns to idle with a blank board and the default bet, and keeps the balance. */
  lemma ResetRestores(s: SessionState)
    ensures var t := AfterReset(s);
      && t.gameStatus == Idle && t.cards == BlankBoard()
      && (forall i :: 0 <= i < |t.cards| ==> !t.cards[i].revealed && t.cards[i].hundredths == 0)
      && t.betAmount == DefaultBet && t.selectedMultiplier == 0 && t.selectedCard == None
      && t.balance == s.balance
  {
  }

  /** A payment adds its signed amount without clamping; only the header clamps at 0. */
  lemma PaymentIsUnclamped(s: SessionState, amount: real)
    ensures AfterPayment(s, amount).balance == s.balance + amount
    ensures s.balance + amount < 0.0 ==>
      AfterPayment(s, amount).balance < 0.0 && DisplayedBalance(AfterPayment(s, amount).balance) == 0.0
    ensures AfterPayment(s, amount).cards == s.cards && AfterPayment(s, amount).gameStatus == s.gameStatus
  {
  }

  /**
   * A whole round from the idle state: start, select card i, reveal. The net
   * change of the balance is -bet for a 0.00x card and +bet*m otherwise.
   */
  lemma {:induction false} RoundNetEffect(s: SessionState, draws: seq<real>, i: nat)
    requires ValidState(s) && |draws| == CardCount && i < CardCount
    requires BetParses(s.betAmount) && 0.0 < BetValue(s.betAmount) <= s.balance
    ensures var t := AfterReveal(AfterSelect(AfterStart(s, draws), i));
      var bet := BetValue(s.betAmount);
      var m := DealtCard(draws[i]).hundredths;
      && t.gameStatus == Completed
      && t.cards[i].revealed
      && t.balance == if m == 0 then s.balance - bet else s.balance + Winnings(bet, m)
  {
    var bet := BetValue(s.betAmount);
    var m := DealtCard(draws[i]).hundredths;
    var b := AfterSelect(AfterStart(s, draws), i);
    SelectAfterStart(s, draws, i);
    RevealSelected(b, i);
    WinningsNonNegative(bet, m);
  }

  lemma WinningsNonNegative(bet: real, m: nat)
    requires bet >= 0.0
    ensures Winnings(bet, m) >= 0.0
  {
    assert bet * m as real >= 0.0;
  }

  /** The reveal that ends a round in which card i is selected. */
  lemma RevealSelected(b: SessionState, i: nat)
    requires ValidState(b) && b.selectedCard == Some(i)
    ensures var t := AfterReveal(b);
      var m := b.cards[i].hundredths;
      var bet := BetValue(b.betAmount);
      && t.gameStatus == Completed
      && t.cards[i].revealed
      && t.balance == if m == 0 then b.balance else Max0(b.balance + (bet + Winnings(bet, m)))
  {
  }

  /** The first two steps of a round: an accepted start, then selecting card i. */
  lemma SelectAfterStart(s: SessionState, draws: seq<real>, i: nat)
    requires ValidState(s) && |draws| == CardCount && i < CardCount
    requires BetParses(s.betAmount) && 0.0 < BetValue(s.betAmount) <= s.balance
    ensures ValidState(AfterStart(s, draws))
    ensures var b := AfterSelect(AfterStart(s, draws), i);
      && ValidState(b)
      && b.selectedCard == Some(i)
      && b.balance == s.balance - BetValue(s.betAmount)
      && |b.cards| == CardCount
      && b.cards[i] == DealtCard(draws[i])
      && b.betAmount == s.betAmount
  {
    var a := AfterStart(s, draws);
    StartAccepted(s, draws);
    StartKeepsValid(s, draws);
    assert AfterSelect(a, i) == a.(selectedCard := Some(i), showPopup := true);
  }

  lemma DefaultBetIsTen()
    ensures BetParses(DefaultBet) && BetValue(DefaultBet) == 10.0
  {
    ParseDecimalOfDigits(DefaultBet);
    assert DefaultBet[..1] == "1";
  }

  /** Balance 1000, bet 10, a 2.00x card (draw 0.97): the balance ends at 1020. */
  lemma WinningRoundScenario(draws: seq<real>)
    requires |draws| == CardCount && draws[0] == 0.97
    ensures AfterReveal(AfterSelect(AfterStart(InitialState, draws), 0)).balance == 1020.0
  {
    DefaultBetIsTen();
    Multipliers.PickBand(0.97, 6);
    Multipliers.WeightsSumToOne();
    assert Multipliers.Cumulative(6) == 95 && Multipliers.Cumulative(7) == 98;
    RoundNetEffect(InitialState, draws, 0);
  }

  /** Balance 1000, bet 10, a 0.00x card (draw 0.1): the balance ends at 990. */
  lemma LosingRoundScenario(draws: seq<real>)
    requires |draws| == CardCount && draws[0] == 0.1
    ensures AfterReveal(AfterSelect(AfterStart(InitialState, draws), 0)).balance == 990.0
  {
    DefaultBetIsTen();
    Multipliers.PickBand(0.1, 0);
    assert Multipliers.Cumulative(1) == 30;
    RoundNetEffect(InitialState, draws, 0);
  }

  // ---------------------------------------------------------------- initializeGame as written

  function JsParseFloat(s: string): JsNumber<real> {
    match ParseDecimal(s)
    case Some(v) => Num(v)
    case None => NaN
  }

  datatype StartOutcome = Refused(reason: Message) | Debited(newBalance: JsNumber<real>)

  /**
   * The guards and the debit of initializeGame exactly as the source has
   * them: every comparison with NaN is false, and NaN - x and Math.max(0, NaN)
   * are NaN.
   */
  function StartAsWritten(betAmount: string, balance: JsNumber<real>): StartOutcome {
    var bet := JsParseFloat(betAmount);
    if betAmount == "" || (bet.Num? && bet.value <= 0.0) then Refused(InvalidBet)
    else if (bet.Num? && balance.Num? && bet.value > balance.value) || (balance.Num? && balance.value <= 0.0) then
      Refused(InsufficientBalance)
    else if bet.Num? && balance.Num? then Debited(Num(Max0(balance.value - bet.value)))
    else Debited(NaN)
  }

  /** The bet "." parses to NaN, passes both guards, and turns a positive balance into NaN. */
  lemma DotBetMakesBalanceNaN(balance: real)
    requires balance > 0.0
    ensures StartAsWritten(".", Num(balance)) == Debited(NaN)
  {
    assert LeadingDigits(".") == 0;
    assert LeadingDigits(""[..]) == 0;
  }

  /** Once the balance is NaN every start passes the guards and the balance stays NaN. */
  lemma NaNBalanceNeverRecovers(betAmount: string)
    requires betAmount != ""
    requires ParseDecimal(betAmount).Some? ==> ParseDecimal(betAmount).value > 0.0
    ensures StartAsWritten(betAmount, NaN) == Debited(NaN)
  {
  }

  /**
   * StartCheck differs from the source only on bets that parse to NaN: on
   * every bet that parses to a number it refuses with the same message, and
   * accepts with the same debit, as StartAsWritten.
   */
  lemma StartCheckAgreesOnNumbers(betAmount: string, balance: real)
    requires ParseDecimal(betAmount).Some?
    ensures StartCheck(betAmount, balance).Some? <==> StartAsWritten(betAmount, Num(balance)).Refused?
    ensures StartCheck(betAmount, balance).Some? ==>
      StartAsWritten(betAmount, Num(balance)) == Refused(StartCheck(betAmount, balance).value)
    ensures StartCheck(betAmount, balance).None? ==>
      StartAsWritten(betAmount, Num(balance)) == Debited(Num(balance - BetValue(betAmount)))
  {
  }

  /** With StartCheck a started round always leaves a finite, non-negative balance. */
  lemma StartCheckKeepsBalanceANumber(s: SessionState, draws: seq<real>)
    requires s.balance >= 0.0
    ensures AfterStart(s, draws).balance >= 0.0
    ensures StartCheck(s.betAmount, s.balance).None? ==>
      AfterStart(s, draws).balance == s.balance - BetValue(s.betAmount)
  {
  }

  /**
   * The dealing loop of initializeGame (`Array(25).fill(null).map(...)`):
   * one run of the sampling walk per draw, in order.
   */
  method DealCards(draws: seq<real>) returns (newCards: seq<Card>)
    ensures newCards == Deal(draws)
  {
    newCards := [];
    var k := 0;
    while k < |draws|
      invariant k <= |draws|
      invariant |newCards| == k
      invariant forall j :: 0 <= j < k ==> newCards[j] == DealtCard(draws[j])
    {
      var index := Multipliers.SampleIndex(draws[k]);
      var entry := Multipliers.Table[index];
      newCards := newCards + [Card(false, entry.hundredths, Some(entry.color))];
      k := k + 1;
    }
  }

  // ---------------------------------------------------------------- the component

  /** The App component's session state, updated in place by its handlers. */
  class Session {
    var balance: real
    var betAmount: string
    var cards: seq<Card>
    var selectedCard: Option<nat>
    var gameStatus: Status
    var message: Message
    var gameStarted: bool
    var showPopup: bool
    var showPayment: bool
    var selectedMultiplier: nat
    var scratchCardRevealed: bool

    function State(): SessionState
      reads this
    {
      SessionState(balance, betAmount, cards, selectedCard, gameStatus, message,
                   gameStarted, showPopup, showPayment, selectedMultiplier, scratchCardRevealed)
    }

    ghost predicate Valid()
      reads this
    {
      ValidState(State())
    }

    constructor ()
      ensures Valid() && State() == InitialState
    {
      balance := InitialBalance;
      betAmount := DefaultBet;
      cards := BlankBoard();
      selectedCard := None;
      gameStatus := Idle;
      message := NoMessage;
      gameStarted := false;
      showPopup := false;
      showPayment := false;
      selectedMultiplier := 0;
      scratchCardRevealed := false;
      new;
      InitialStateValid();
    }

    method InitializeGame(draws: seq<real>)
      requires Valid() && |draws| == CardCount
      modifies this
      ensures Valid() && State() == AfterStart(old(State()), draws)
    {
      StartKeepsValid(State(), draws);
      if betAmount == "" || ParseDecimal(betAmount).None? || ParseDecimal(betAmount).value <= 0.0 {
        message := InvalidBet;
        return;
      }
      var currentBet := ParseDecimal(betAmount).value;
      var currentBalance := balance;
      if currentBet > currentBalance || currentBalance <= 0.0 {
        message := InsufficientBalance;
        return;
      }
      StartRound(draws, currentBet);
    }

    /** The accepted half of initializeGame: debit the bet, deal, and start playing. */
    method StartRound(draws: seq<real>, bet: real)
      modifies this
      ensures State() == old(State()).(balance := Max0(old(balance) - bet), cards := Deal(draws),
                                       gameStarted := true, gameStatus := Playing,
                                       selectedCard := None, message := NoMessage)
    {
      balance := Max0(balance - bet);
      var newCards := DealCards(draws);
      cards := newCards;
      gameStarted := true;
      gameStatus := Playing;
      selectedCard := None;
      message := NoMessage;
    }

    method HandleCardSelect(index: nat)
      requires Valid() && index < CardCount
      modifies this
      ensures Valid() && State() == AfterSelect(old(State()), index)
    {
      if gameStatus != Playing || cards[index].revealed {
        return;
      }
      selectedCard := Some(index);
      showPopup := true;
    }

    method HandleClosePopup()
      requires Valid()
      modifies this
      ensures Valid() && State() == AfterClose(old(State()))
    {
      showPopup := false;
      selectedCard := None;
    }

    method ResetGame()
      requires Valid()
      modifies this
      ensures Valid() && State() == AfterReset(old(State()))
    {
      gameStarted := false;
      gameStatus := Idle;
      cards := BlankBoard();
      selectedMultiplier := 0;
      selectedCard := None;
      message := NoMessage;
      betAmount := DefaultBet;
      showPopup := false;
      scratchCardRevealed := false;
      ResetKeepsValid(old(State()));
    }

    method HandleReveal()
      requires Valid()
      modifies this
      ensures Valid() && State() == AfterReveal(old(State()))
    {
      if selectedCard == None {
        return;
      }
      ghost var before := State();
      var i := selectedCard.value;
      var multiplier := cards[i].hundredths;
      var betAmountValue := ParseDecimal(betAmount).value;
      TurnUp(i);
      if multiplier == 0 {
        message := BetterLuck;
      } else {
        var winningAmount := Winnings(betAmountValue, multiplier);
        var totalReturn := betAmountValue + winningAmount;
        balance := Max0(balance + totalReturn);
        message := Won(totalReturn, betAmountValue, winningAmount);
      }
      assert State() == Settle(Completion(before, i), betAmountValue, multiplier);
      RevealKeepsValid(before);
    }

    /** The first half of handleReveal: card i face up, the round completed. */
    method TurnUp(i: nat)
      requires i < |cards|
      modifies this
      ensures State() == Completion(old(State()), i)
    {
      var newCards := cards;
      newCards := newCards[i := newCards[i].(revealed := true)];
      cards := newCards;
      selectedMultiplier := newCards[i].hundredths;
      gameStatus := Completed;
      gameStarted := false;
      showPopup := false;
      selectedCard := None;
      scratchCardRevealed := false;
    }

    method HandlePaymentSuccess(amount: real)
      requires Valid()
      modifies this
      ensures Valid() && State() == AfterPayment(old(State()), amount)
    {
      balance := balance + amount;
      showPayment := false;
      showPopup := true;
      message := FundsAdded(amount);
    }

    method HandleBetInput(input: string)
      requires Valid()
      modifies this
      ensures Valid() && State() == AfterBetInput(old(State()), input)
    {
      if gameStarted {
        return;
      }
      betAmount := FilterBet(input);
    }
  }
}
