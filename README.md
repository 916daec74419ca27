# Scratch 2X: game session, scratch gate, payment form and wallet server in Dafny

This project models the logic of the Scratch 2X scratch-card game and proves properties of the model. The game has four parts:

- **The game session** (`App.js`): a balance ledger and a bet field. A round deals 25 face-down cards, each drawn from an eight-entry multiplier table by a cumulative-probability walk. The player selects one card, and revealing it settles the stake. The session also receives top-ups and withdrawals reported by the payment form.
- **The scratch surface** (`ScratchCard.js`): a pointer state machine. It reveals the card once more than 40 % of the surface counts as scratched.
- **The payment form** (`PaymentGateway.js`): an amount filter, validators for deposits and withdrawals, the submit handlers, the interval that polls a deposit's status, and the UPI deep link.
- **The wallet server** (`server.js`): the create-deposit, withdraw and payment-status handlers, working over the in-memory `payments` and `wallets` maps.

Modules and files:

| file | module | models |
|---|---|---|
| `wrappers.dfy` | `Wrappers` | `Option` and `Result` |
| `numeric.dfy` | `Numeric` | decimal digit text: `parseFloat` on digit-and-dot text, `toString` of naturals |
| `multipliers.dfy` | `Multipliers` | the multiplier table and the sampling walk |
| `game.dfy` | `Game` | the session: pure transitions on `SessionState` and the class `Session` |
| `scratch.dfy` | `Scratch` | the coverage count and the class `ScratchSurface` |
| `upi.dfy` | `Upi` | UPI links as a scheme plus an ordered parameter list |
| `payment_form.dfy` | `PaymentForm` | validators, polling, handler transitions and the class `Form` |
| `server.dfy` | `Server` | handler steps on `ServerState` and the class `WalletServer` |

Each stateful part is written twice:

- as a pure transition on a state value, which the lemmas speak about;
- as a class whose methods update their fields in place, each method's contract tying the new state to that transition.

Modelling choices:

- **Numbers.** Client money is exact `real`. Multipliers are integers in hundredths (`0.10x` is 10), and probabilities are integer percentages (30, 20, 15, 15, 10, 5, 3, 2).
- **Randomness.** `Math.random()` becomes one draw per card, passed in as a parameter.
- **The canvas.** The canvas becomes the RGBA byte buffer that `getImageData` returns after a brush stroke.
- **Network services.** Every call to a network service becomes an input. On the client these are the payment API calls; on the server they are the uuid, the database insert and the payment processors' status answers.
- **URL encoding.** `encodeURIComponent` is an uninterpreted function. The percent-encoding that `URLSearchParams` applies when it renders a link is not modelled.

Where the code and its description differ, the model follows the code, with one exception. The bet guard of `initializeGame` lets a bet that parses to NaN through. The session therefore uses the corrected guard `Game.StartCheck`, and the guard as written is `Game.StartAsWritten` (see "## Findings" and "## Left out"). Elsewhere:

- When no running sum reaches the draw, the sampling walk falls back to entry 0 (`App.js:212`), not to the last entry.
- The session has no separate "awaiting reveal" status. A round is `playing` until the reveal sets it to `completed`.
- The payment-status handler switches on `payment.method` (`server.js:215`). Create-deposit never writes that field; it writes `paymentMethod`. So every status check reports the stored `pending`, and no deposit is ever credited (`Server.StatusCheckNeverCredits`).
- `generateUPIUrl` reads `payment.metadata.upiApp`. Deposit records have no `metadata`, so every UPI deposit fails with a TypeError after its pending record has been stored (`Server.OnlyBankDepositsSucceed`).
- The card and crypto processors use the clients `stripe` and `moonpay`, which `server.js` never declares. Those deposits fail with a ReferenceError.

## Model

| member | source | states |
|---|---|---|
| Numeric.ParseDecimal | App.js:192-197 | `parseFloat` on bet text: the value read is never negative (its value and its NaN case are stated by the lemmas below) |
| Numeric.ParseDecimalAtDot | App.js:192-197 | text whose only non-digit is one dot at index k parses to digits before it plus the fraction after it |
| Numeric.ParseDecimalOfFraction | App.js:192-197 | digits a, a dot and digits b, with at least one digit, parse to value(a) + value(b) / 10^|b| |
| Numeric.ParseDecimalNaN | App.js:192-197 | on digit-and-dot text the result is NaN exactly when no digit comes before the second dot or the end: the text is "", "." or starts with ".." |
| Numeric.ParseDecimalExamples | App.js:192-197 | "1.5" reads as 1.5; ".", "" and "..5" read as NaN |
| Numeric.ParseDecimalOfDigits | App.js:197 | a non-empty all-digit bet parses to exactly its decimal value |
| Numeric.NatText | PaymentGateway.js:82-83 | `value.toString()` of a preset amount is non-empty decimal digits with no leading zero |
| Numeric.NatTextRoundTrip | PaymentGateway.js:82-83 | reading the printed digits of n back gives n |
| Multipliers.Pick | App.js:209-220 | the walk always selects an index inside the eight-entry table |
| Multipliers.SampleIndex | App.js:210-220 | the accumulate-and-break loop returns exactly the entry `Pick` specifies, for every draw |
| Multipliers.WeightsSumToOne | App.js:180-189 | the table's probabilities sum to exactly 1 (100 percent) |
| Multipliers.CumulativeMonotone | App.js:214-215 | running sums never decrease along the table |
| Multipliers.PickFromFirst | App.js:214-219 | a walk started at entry k stops at the first covering entry from k on, and yields entry 0 when none covers |
| Multipliers.PickIsFirstCovering | App.js:211-220 | the selected entry is the first whose running sum is at least r; when no sum is, entry 0 is selected, not the last |
| Multipliers.FallbackIsFirstEntry | App.js:212 | a draw above 1 is covered by no running sum and falls back to entry 0 |
| Multipliers.UnitDrawIsCovered | App.js:210-220 | every draw at most 1 is covered by a running sum, so the fallback is never taken for Math.random values |
| Multipliers.PickBand | App.js:180-220 | for r <= 1, entry i is selected exactly when r lies in its band (Cum(i), Cum(i+1)], and the band is as wide as the entry's probability |
| Game.FilterBet | App.js:381 | the bet filter never lengthens the text and leaves only digits and dots |
| Game.FilterBetConcat | App.js:381 | the filter works character by character, so kept characters stay in their original order |
| Game.FilterBetCounts | App.js:381 | every digit and dot survives as often as it occurs; every other character is removed |
| Game.FilterBetFixes | App.js:381 | text passes unchanged exactly when it is made of digits and dots only |
| Game.FilterBetIdempotent | App.js:381 | filtering already filtered text changes nothing |
| Game.StartCheck | App.js:192-203 | the corrected start guards (the source's own are `StartAsWritten`): a bet that is empty, not positive or NaN is refused as invalid first; a bet above the balance, or a balance <= 0, is refused next; otherwise the round may start (both directions) |
| Game.Deal | App.js:209-227 | one dealt card per draw |
| Game.InitialStateValid | App.js:165-175 | the initial session (balance 1000, bet "10", 25 blank cards, idle) satisfies the session invariant |
| Game.TransitionsPreserveValid | App.js:191-297 | every handler keeps the invariant: 25 cards, filtered bet text, round running exactly while playing, a positive parsed bet while it runs, selection only while playing |
| Game.StartKeepsValid | App.js:191-234 | initializeGame keeps the session invariant, whether it refuses or starts a round |
| Game.RevealKeepsValid | App.js:260-289 | handleReveal keeps the session invariant |
| Game.ResetKeepsValid | App.js:248-258 | resetGame reaches a state satisfying the session invariant from any state |
| Game.StartRefused | App.js:192-203 | a refused start changes only the message (invalid bet or insufficient balance); balance, cards, status and selection stay |
| Game.StartAccepted | App.js:205-233 | an accepted start debits max(0, balance - bet), which equals balance - bet; it deals 25 face-down cards from the draws, sets playing, and clears the selection and the message |
| Game.SelectGuard | App.js:236-241 | selecting does nothing unless the round is playing and the card is face down; otherwise it sets exactly the selection and the popup flag, leaving balance and board alone |
| Game.CloseKeepsBoard | App.js:243-246 | closing the popup clears the selection and keeps the cards and the balance |
| Game.RevealSettles | App.js:260-289 | with no selection nothing changes; otherwise only the selected card turns face up, the status becomes completed and the selection clears; the balance is unchanged for 0.00x and max(0, balance + bet + bet*m) for m > 0 |
| Game.ResetRestores | App.js:248-258 | reset sets idle, 25 blank 0.00x face-down cards, bet "10", multiplier 0.00x and no selection, and keeps the balance |
| Game.PaymentIsUnclamped | App.js:291-304 | a payment adds its signed amount without clamping; a negative result is displayed as 0 only by the header |
| Game.RoundNetEffect | App.js:205-282 | start, select and reveal from a valid state with an affordable bet change the balance by -bet on a 0.00x card, and by +bet*m otherwise |
| Game.SelectAfterStart | App.js:205-241 | after an accepted start and a select, card i is selected, holds the card dealt for draw i, and the balance is down by exactly the bet |
| Game.RevealSelected | App.js:260-284 | revealing the selected card i completes the round, turns card i face up and settles its multiplier |
| Game.WinningsNonNegative | App.js:279 | the winnings bet * m of a non-negative bet are never negative |
| Game.DefaultBetIsTen | App.js:166 | the default bet text parses to 10 |
| Game.WinningRoundScenario | App.js:279-282 | balance 1000, bet 10, a 2.00x card (draw 0.97) leaves the balance at 1020 |
| Game.LosingRoundScenario | App.js:274-276 | balance 1000, bet 10, a 0.00x card (draw 0.1) leaves the balance at 990 |
| Game.DotBetMakesBalanceNaN | App.js:192-207 | as written, the bet "." gives NaN; it passes both guards and turns any positive balance into NaN |
| Game.NaNBalanceNeverRecovers | App.js:200-207 | as written, once the balance is NaN every nonempty bet not parsed to <= 0 starts a round and the balance stays NaN |
| Game.StartCheckAgreesOnNumbers | App.js:192-207 | the corrected guard refuses and debits exactly as the source does on every bet that parses to a number |
| Game.StartCheckKeepsBalanceANumber | App.js:205-207 | with the corrected guard a start keeps a non-negative balance non-negative, and an accepted start debits exactly the bet |
| Game.DealCards | App.js:209-227 | the dealing loop produces exactly `Deal(draws)`: card j is the face-down entry the walk picks for draw j |
| Game.Session.constructor | App.js:165-175 | the component starts in the initial session state |
| Game.Session.InitializeGame | App.js:191-234 | updates the fields to `AfterStart` of the old state, with the corrected guard, and keeps the invariant |
| Game.Session.StartRound | App.js:205-233 | the accepted half of initializeGame: debits the bet with the clamp, deals `Deal(draws)`, sets playing, clears selection and message, and changes nothing else |
| Game.Session.HandleCardSelect | App.js:236-241 | updates the fields to `AfterSelect` of the old state |
| Game.Session.HandleClosePopup | App.js:243-246 | updates the fields to `AfterClose` of the old state |
| Game.Session.ResetGame | App.js:248-258 | updates the fields to `AfterReset` of the old state |
| Game.Session.HandleReveal | App.js:260-289 | copies the board, overwrites the one selected slot and settles, giving `AfterReveal` of the old state |
| Game.Session.TurnUp | App.js:263-272 | the first half of handleReveal: the state becomes `Completion` of the old one |
| Game.Session.HandlePaymentSuccess | App.js:291-297 | updates the fields to `AfterPayment` of the old state |
| Game.BetInputStoresFiltered | App.js:377-385 | while no round runs the bet field stores the filtered text, while one runs it ignores input; balance and board never change |
| Game.Session.HandleBetInput | App.js:377-385 | the disabled-while-playing bet field stores the filtered input |
| Scratch.ZeroBytes | ScratchCard.js:95 | the zero-byte count is at most the buffer length, and equals it exactly when every byte is 0 |
| Scratch.Coverage | ScratchCard.js:94-96 | (zeros / 4) / (w*h) * 100 always lies in [0, 100] |
| Scratch.CoverageBounded | ScratchCard.js:96 | at most 4 zero bytes per pixel keep the percentage within [0, 100] |
| Scratch.RevealThresholdInIntegers | ScratchCard.js:96-99 | coverage > 40 exactly when 25 * zeros > 40 * w * h |
| Scratch.ThresholdScaled | ScratchCard.js:96-99 | the percentage exceeds 40 exactly when 25 * zeros > 40 * pixels |
| Scratch.Fires | ScratchCard.js:99-101 | `onReveal` fires exactly when the card is not yet revealed and 25 * zeros > 40 * 200 * 200 |
| Scratch.CountsZeroBytesNotTransparentPixels | ScratchCard.js:95 | zero bytes are counted, not transparent pixels: an opaque black pixel reads 75 %, a transparent white one 25 % |
| Scratch.ScratchSurface.constructor | ScratchCard.js:5-7 | not scratching, no last point, 0 % scratched |
| Scratch.ScratchSurface.HandleStart | ScratchCard.js:104-107 | sets scratching, clears the last point, keeps the percentage |
| Scratch.ScratchSurface.HandleEnd | ScratchCard.js:109-112 | clears scratching and the last point, keeps the percentage |
| Scratch.ScratchSurface.Scratch | ScratchCard.js:53-102 | does nothing while not scratching; otherwise sets the last point to the canvas-relative point and the percentage to the coverage, and fires exactly as `Fires` says (again on every later move past the gate, since nothing latches) |
| Upi.Keys | PaymentGateway.js:249-255 | the parameter names of a query, in order |
| Upi.Lookup | PaymentGateway.js:249-255 | a name is found exactly when it is among the names, and the value found belongs to the query under that name |
| Upi.LookupFindsEachParam | PaymentGateway.js:249-255 | with distinct names, each parameter's value is found under its own name |
| PaymentForm.ValidateDeposit | PaymentGateway.js:95-117 | accepted exactly when the amount is non-empty and within MIN/MAX of a listed currency (any amount for an unlisted one), a UPI deposit has an app and a BANK deposit a bank; the first failing check names the error, for every currency: an empty or below-minimum amount gives the minimum error with that currency and its minimum (none for an unlisted currency), an amount above the maximum the maximum error with that maximum, and only an amount within bounds the missing-app or missing-bank error |
| PaymentForm.DepositBoundsInclusive | PaymentGateway.js:96-104 | both bounds are themselves accepted by the amount checks |
| PaymentForm.DepositAmountCheckedFirst | PaymentGateway.js:95-116 | an out-of-bounds amount is reported whatever the method, app or bank: amount checks come first |
| PaymentForm.InrDepositLimits | PaymentGateway.js:32-44 | an INR card deposit of n is accepted exactly when 100 <= n <= 1000000, with the minimum or maximum error otherwise |
| PaymentForm.ValidateWithdrawal | PaymentGateway.js:119-151 | accepted exactly when the amount is at least 1000, at most the balance when one is given, a UPI withdrawal has a UPI id and a BANK one has account number, IFSC and holder; the first failing check names the error: an empty or below-1000 amount gives the minimum error, insufficient balance is reported exactly when the amount passes the minimum and exceeds a given balance, and once the amount passes both, a missing UPI id, account number, IFSC or holder (in that order) gives its own error |
| PaymentForm.WithdrawalUpToBalance | PaymentGateway.js:125-128 | an amount equal to the balance passes the balance check; one above it is refused as insufficient |
| PaymentForm.NoBalancePropNeverInsufficient | PaymentGateway.js:125-128 | without a `balance` prop (as App.js mounts the form) no withdrawal is refused for want of funds |
| PaymentForm.AppScheme | PaymentGateway.js:257-264 | gpay, phonepe and paytm get their schemes; every other app, bhim included, falls back to `upi://pay` (both directions) |
| PaymentForm.PaymentLinkParams | PaymentGateway.js:244-265 | the link has the app's scheme and the parameters pa, pn, tn, am, cu in order, carrying the merchant id and name, "Payment for Order <id>", the amount and always INR |
| PaymentForm.LinkKeys | PaymentGateway.js:249-255 | the form link's parameter names are pa, pn, tn, am, cu in that order |
| PaymentForm.LinkLookups | PaymentGateway.js:247-255 | each of the five names finds the value it was built from |
| PaymentForm.LinkKeysDistinct | PaymentGateway.js:249-255 | the five names are pairwise distinct |
| PaymentForm.FirstTerminal | PaymentGateway.js:180-199 | the index of the first answer that stops the interval (completed, failed or thrown), or none when no answer does |
| PaymentForm.RunIsFirstTerminal | PaymentGateway.js:180-199 | polling is decided by its first terminal answer alone; with none the interval is still running and nothing changed |
| PaymentForm.StoppedStaysStopped | PaymentGateway.js:184-195 | after `clearInterval` no answer has any effect |
| PaymentForm.CreditedOnceOnCompletion | PaymentGateway.js:183-188 | +amount is reported at most once, exactly when the first terminal answer is completed and the balance update succeeds; the interval stops exactly when a terminal answer arrives |
| PaymentForm.LaterAnswersIgnored | PaymentGateway.js:184-195 | answers after the first terminal one do not change the outcome |
| PaymentForm.FirstTerminalOfExtension | PaymentGateway.js:180-199 | appending answers after a terminal one leaves the first terminal answer where it was |
| PaymentForm.ErrorText | PaymentGateway.js:203 | `err.message || fallback`: the message when there is one, the fallback otherwise |
| PaymentForm.InitialForm | PaymentGateway.js:7-19 | the initial form keeps the amount invariant, has reported nothing and is not polling |
| PaymentForm.HandlersKeepAmountDigits | PaymentGateway.js:82-93 | every handler keeps the amount field to digits only |
| PaymentForm.AmountChangeFilter | PaymentGateway.js:87-93 | an input that is neither '' nor digits leaves amount and error unchanged; an accepted one is stored and clears the error |
| PaymentForm.QuickAmountReadsBack | PaymentGateway.js:82-85 | a preset amount is stored as digits that read back as the preset |
| PaymentForm.RefusalOnlySetsError | PaymentGateway.js:153-154 | a deposit (or withdrawal, line 210) that fails validation only sets the error; no API call follows |
| PaymentForm.UpiDepositRedirects | PaymentGateway.js:170-180 | an accepted UPI deposit redirects to the app's deep link for the new deposit id and starts polling with the amount of the field, crediting nothing yet |
| PaymentForm.DepositCreditsOnlyThroughPolling | PaymentGateway.js:153-207 | submitting a deposit reports nothing to `onSuccess`; polling starts exactly on a created deposit that passed validation |
| PaymentForm.DepositThenCompletionCredits | PaymentGateway.js:161-187 | a created deposit whose first terminal answer is completed reports +amount once, with the submitted amount, and shows success |
| PaymentForm.WithdrawalReportsNegativeAmount | PaymentGateway.js:230-234 | a withdrawal reports -amount exactly when it is valid, the record is created and the balance update succeeds; otherwise it reports nothing |
| PaymentForm.Form.constructor | PaymentGateway.js:6-19 | the component starts in the initial form state |
| PaymentForm.Form.HandleAmountChange | PaymentGateway.js:87-93 | updates the state to `AmountChanged` of the old state and keeps the amount invariant |
| PaymentForm.Form.HandleQuickAmount | PaymentGateway.js:82-85 | updates the state to `QuickAmount` of the old state |
| PaymentForm.Form.EditFields | PaymentGateway.js:304-406 | the verbatim field setters of the JSX inputs change only the eight non-amount inputs |
| PaymentForm.Form.HandleDeposit | PaymentGateway.js:153-207 | updates the state to `DepositSubmitted` of the old state |
| PaymentForm.Form.SendDeposit | PaymentGateway.js:156-206 | the part after validation: processing, the create call's outcome, the redirect or bank details, the start of polling |
| PaymentForm.Form.PollPaymentStatus | PaymentGateway.js:180-199 | the interval loop over the answers leaves the poller fields at `Run` of the old ones |
| PaymentForm.Form.PollOnce | PaymentGateway.js:180-198 | one callback run: the poller fields become `Tick` of the old ones, and the inputs, amount, processing flag and redirect stay |
| PaymentForm.Form.HandleWithdrawal | PaymentGateway.js:209-242 | updates the state to `WithdrawalSubmitted` of the old state |
| Server.ServerScheme | server.js:355-364 | gpay becomes `tez://upi/pay`, phonepe `phonepe://pay`, paytm `paytmmp://pay`, anything else `upi://pay` (both directions) |
| Server.UpiQueryParams | server.js:340-353 | parameters pa, pn, tn, am, cu, tr in that order; the payee name and the note "Payment for order <id>" are encoded, am is the amount, cu the source currency, tr the payment id |
| Server.UpiQueryKeys | server.js:346-353 | the server link's parameter names are pa, pn, tn, am, cu, tr in that order |
| Server.UpiQueryLookups | server.js:340-353 | each of the six names finds the value it was built from |
| Server.UpiQueryKeysDistinct | server.js:346-353 | the six names are pairwise distinct |
| Server.UpiUrlScheme | server.js:355-364 | a record with metadata gets its app's scheme over that query; a record without metadata throws the TypeError |
| Server.NewDeposit | server.js:57-70 | the stored record is pending under the new id, `targetCurrency` defaults to BTC only when absent, and `method`, `cryptoAmount` and `metadata` are unset |
| Server.MissingFieldsStoreNothing | server.js:49-55 | a falsy amount, source currency, method or user id gives 400 exactly, and stores nothing |
| Server.DepositStoresPendingRecord | server.js:57-95 | otherwise the pending record is in the map whatever the processor or the insert does, and the wallets are untouched |
| Server.OnlyBankDepositsSucceed | server.js:75-95 | only BANK with a clean insert succeeds (with the payment id as reference); UPI fails with the metadata TypeError, CARD and crypto with a ReferenceError, anything else as unsupported |
| Server.EstimatedTime | server.js:175-179 | crypto currencies are estimated at 10-30 minutes, every other currency at 1-3 business days |
| Server.WithdrawAcceptance | server.js:141-156 | 400 for a missing parameter; accepted exactly when the user's entry for the currency is non-zero, not NaN and at least the amount (equal is allowed) |
| Server.WithdrawDebitsExactly | server.js:181-183 | an accepted withdrawal lowers that entry by exactly the amount and leaves every other currency, user and payment unchanged; a refusal changes nothing |
| Server.WithdrawKeepsCoveredEntriesNonNegative | server.js:151-183 | an accepted withdrawal never leaves the entry negative |
| Server.NegativeWithdrawalCredits | server.js:142-156 | a negative amount is truthy and passes the balance check, so it raises the entry |
| Server.CheckedStatus | server.js:213-224 | a record whose `method` is neither UPI nor CRYPTO (undefined included) reports its stored status |
| Server.UnknownPaymentNotFound | server.js:204-211 | an unknown id gives 404 exactly, and changes nothing |
| Server.CreditOnlyOnFirstCompletion | server.js:226-234 | wallets change only when the processor says completed and the stored status is not completed; then the record becomes completed and only its user's target currency is credited |
| Server.RepeatCheckCreditsNothing | server.js:227-233 | after a crediting check, a second check of the same payment changes nothing, whatever the processor says |
| Server.CreditWithoutAmountIsNaN | server.js:229 | adding the undefined `cryptoAmount` credits NaN, which no later withdrawal can spend |
| Server.HandlersKeepRecordsAsCreated | server.js:59-73 | all three handlers keep every record pending with no `method`, `cryptoAmount` or `metadata` |
| Server.StatusCheckNeverCredits | server.js:213-234 | on such records a status check reports the stored pending and changes neither map: no deposit is ever credited |
| Server.WalletServer.constructor | server.js:21-23 | both maps start empty |
| Server.WalletServer.CreateDeposit | server.js:37-128 | the maps and the response are those of `DepositStep` |
| Server.WalletServer.Withdraw | server.js:131-198 | the maps and the response are those of `WithdrawStep` |
| Server.WalletServer.PaymentStatus | server.js:201-249 | the maps and the response are those of `StatusStep` |

## Left out

- Canvas drawing is not modelled: the metallic gradient, the texture and sparkles, and the radial brush and its stroke joins. The model receives the byte buffer that results.
- React rendering, JSX, CSS, and the popup's `setTimeout` hiding are not modelled; they are UI.
- `Math.random` and its distribution are not modelled. The draw is an input, and `Multipliers.PickBand` states the band each entry owns.
- IEEE floating point is not modelled; sums are exact. Added in table order, the JavaScript running sums are 0.3, 0.5, 0.65, 0.8, 0.9, 0.9500000000000001, 0.9800000000000001 and exactly 1.0. So the fallback stays unreachable in JavaScript too. What the exact sums lose is the position of two band edges: the edge between 1.00x and 2.00x lies one unit in the last place above 0.95, and the edge between 2.00x and 3.00x one unit above 0.98.
- `toFixed`, `toLocaleString` and the text of the win message are not modelled; the model keeps their numbers.
- The network calls pass their outcomes in as inputs: the payment API of the form, the database insert, the CoinGecko rates, the Stripe and MoonPay clients, and Express itself.
- The web3 wallet connector is not part of this model.
- The supabase helper module is not modelled. The file of that name in the repository exports `paymentDb` and has no `checkPaymentStatus`, so it is not the `paymentApi` the form imports; that API is not part of this model.
- `checkUPIStatus` and `checkCryptoStatus` are not defined in `server.js`. Their results are inputs (`upiCheck`, `cryptoCheck`) and are never reached from the records the handlers create.
- uuid, `Date`, `localStorage`, `window.location` navigation and the 3-second interval timing are left out. Ids are inputs; the redirect is recorded as a field.
- The model processes poll answers one at a time, in order. Overlapping async ticks and several intervals alive at once are not modelled.
- `encodeURIComponent` and `URLSearchParams` rendering are left out. Encoding is an uninterpreted function, and links stay structured.
- Object-prototype keys such as `toString` used as a currency, app or user id are not modelled: a JavaScript lookup would find inherited members where the model's maps find nothing.
- The `/api/wallet` endpoint, the rate helpers and `convertToMetamask` are not modelled. None of them is part of the three handlers.
- The scratch code duplicated inside `App.js` (lines 6-162) is modelled once, from `ScratchCard.js`.
- Game.Session.InitializeGame: refuses a bet that parses to NaN (such as "." or "..", which the bet filter lets through) as invalid, while `App.js:192-203` accepts it and sets the balance to NaN. The guard as written is `Game.StartAsWritten`; see "## Findings".
- Game.StartCheck: is the corrected guard, not the source's. It agrees with `App.js:192-203` on every bet that parses to a number (`Game.StartCheckAgreesOnNumbers`) and differs only on NaN bets.
- Game.Session.HandleCardSelect: requires an index inside the board. An out-of-range index would throw in `cards[index].revealed`, and the UI only passes the index of a rendered card.
- Server.WalletServer: request amounts and wallet entries are integers. A fractional JSON number is not modelled.
- The deposit/withdraw `mode` toggle and `handleSubmit` are not modelled; they only choose which handler runs.
- `fetchTransactions` and the transaction list are not modelled; they are display only.
- PaymentForm.Form: the nine text inputs, separate `useState` fields in the source, are held as one `FormInputs` record field.

## Findings

| source | as written | input that shows it | evidently intended | confidence | as-written member | corrected member |
|---|---|---|---|---|---|---|
| App.js:192-207 | `!betAmount \|\| parseFloat(betAmount) <= 0` lets a bet that parses to NaN through (NaN <= 0 is false), and `NaN > balance` is false too, so the debit sets the balance to NaN for good | bet text "." (the bet filter keeps dots) with balance 1000 | a bet that is not a positive number is refused as invalid, and the balance stays a number | high; not executed | Game.DotBetMakesBalanceNaN | Game.StartCheckKeepsBalanceANumber |
