# Raffle storefront: pricing, checkout and payment creation

This project models the deterministic core of a raffle storefront. The
storefront sells raffle numbers in volume tiers, collects the buyer's details
in a checkout dialog, and creates a PIX payment through the LiraPay gateway.
Money is in integer cents (R$ 1,99 is `199`), except the prize values of
the prize list, which are whole reais as the page's table states them.

- **Quantity selector** (`raffle_hero.dfy`). `calculatePrice` is a five-tier
  step function. The selector's handlers are the methods of the class
  `QuantitySelector`. Each method's new state is a pure transition function
  (`Added`, `Typed`, `Decremented`, ...) of the old one. The two invariants
  are `quantity >= 5` and `currentPrice == calculatePrice(quantity)`.
- **Checkout dialog** (`checkout_modal.dfy`, `input_masks.dfy`). This covers:
  - the form validation;
  - the step machine `form -> payment -> success`;
  - the field update that clears one error;
  - payment polling as at most 300 ticks (15 minutes of 3-second intervals);
  - the CPF and phone input masks.

  The masks are modelled as the chain of regular-expression replacements they
  are, each replacement at the leftmost match. Their outputs are then proved
  to have closed forms.
- **Transaction route** (`create_transaction.dfy`). `POST` runs four gates in
  order: required fields, complete customer, configured secret, and a total
  within one cent. It then builds the gateway request and maps the reply to a
  response. The gateway is an oracle function: it either returns the created
  transaction or throws a message.
- **Gateway helpers** (`lirapay.dfy`). `formatCustomerData` and `getClientIP`.
- **Prize list** (`prize_section.dfy`). This covers:
  - the flattening of the prize table;
  - the main-prize subset;
  - the sold/available split;
  - the tab filter.
- **Shared pieces**:
  - `text.dfy` models `replace(/\D/g, "")`, `trim` (ECMAScript white space and
    line terminators), `split(",")[0]`, `Number.parseInt` and `String(n)`;
  - `sequences.dfy` models `filter` and the subsequence relation;
  - `wrappers.dfy` holds `Option`.

Two facts the proofs bring out about the code as written:

- **"Email é obrigatório" is never shown.** The missing-`@` check overwrites
  the empty-email message, and a blank email has no `@`
  (`CheckoutModal.EmailRequiredNeverShown`).
- **The hero's R$ 5,00 total gate can never fail.** Whenever the quantity gate
  passes, the total gate passes too (`RaffleHero.TotalGateNeverFails`).

## Model

| member | source | states |
|---|---|---|
| `RaffleHero.CalculatePrice` | components/raffle-hero.tsx:16-22 | the unit price is always between 99 and 199 cents |
| `RaffleHero.CalculatePriceFollowsTiers` | components/raffle-hero.tsx:16-22 | at every quantity, the price is the one of the advertised tier table: 199 below 100, 189 from 100, 169 from 500, 149 from 1000, 99 from 5000 |
| `RaffleHero.PriceNonIncreasing` | components/raffle-hero.tsx:16-22 | buying more never raises the unit price |
| `RaffleHero.InitialConsistent` | components/raffle-hero.tsx:11-14 | the initial state (5 numbers at 1,99) satisfies both invariants |
| `RaffleHero.ApplyKeepsConsistent` | components/raffle-hero.tsx:32-91 | every handler preserves `quantity >= 5` and `price == calculatePrice(quantity)` |
| `RaffleHero.RunKeepsConsistent` | components/raffle-hero.tsx:11-91 | after any sequence of buyer actions from a consistent state, both invariants still hold |
| `RaffleHero.QuantityHandlersRejectOrAccept` | components/raffle-hero.tsx:32-77 | a handler that would go below 5 leaves quantity and price and sets the minimum-quantity error; otherwise it clears the error and prices the new quantity |
| `RaffleHero.TypedFallsBackToMinimum` | components/raffle-hero.tsx:50-51 | unparseable input, or input that parses to 0, is read as 5 and accepted |
| `RaffleHero.TypedNumber` | components/raffle-hero.tsx:50-59 | a typed non-zero integer becomes the quantity when it is at least 5, and is refused with the minimum error otherwise |
| `RaffleHero.TierAndIncrementSucceed` | components/raffle-hero.tsx:43-66 | a tier button sets `max(minQty, 5)` and the plus button adds one; both clear the error |
| `RaffleHero.CheckoutGates` | components/raffle-hero.tsx:81-91 | the dialog opens iff quantity >= 5 and total >= 500 cents; the quantity error takes precedence over the total error; quantity and price are untouched |
| `RaffleHero.TotalGateNeverFails` | components/raffle-hero.tsx:79-91 | under the invariants the total is at least 500 cents |
| `RaffleHero.TotalPrice` | components/raffle-hero.tsx:79 | `totalPrice`: quantity times unit price, in cents; at least 500 under the invariants (`TotalGateNeverFails`) |
| `RaffleHero.TypedQuantity` | components/raffle-hero.tsx:51 | `Number.parseInt(value) \|\| 5`: the parsed integer, or 5 for NaN and 0 (`TypedFallsBackToMinimum`, `TypedNumber`) |
| `RaffleHero.Added` | components/raffle-hero.tsx:32-41 | `addQuantity` as a transition: refused below 5 with the minimum error, otherwise the new quantity priced by `calculatePrice` (`QuantityHandlersRejectOrAccept`, `ApplyKeepsConsistent`) |
| `RaffleHero.TierSelected` | components/raffle-hero.tsx:43-48 | `selectPricingTier` as a transition: quantity `max(minQty, 5)`, its price, error cleared (`TierAndIncrementSucceed`) |
| `RaffleHero.Typed` | components/raffle-hero.tsx:50-59 | `handleQuantityChange` as a transition on the parsed quantity (`TypedNumber`, `ApplyKeepsConsistent`) |
| `RaffleHero.Incremented` | components/raffle-hero.tsx:61-66 | `incrementQuantity` as a transition: one more number, priced, error cleared (`TierAndIncrementSucceed`) |
| `RaffleHero.Decremented` | components/raffle-hero.tsx:68-77 | `decrementQuantity` as a transition: refused at 5, otherwise one fewer, priced (`QuantityHandlersRejectOrAccept`) |
| `RaffleHero.CheckedOut` | components/raffle-hero.tsx:81-91 | `handleCheckout` as a transition: the quantity gate, then the total gate, then the dialog opens (`CheckoutGates`) |
| `RaffleHero.FiveEntriesExample` | components/raffle-hero.tsx:79-91 | five numbers cost 995 cents and open checkout |
| `RaffleHero.QuantitySelector.constructor` | components/raffle-hero.tsx:11-14 | the selector starts at 5 numbers, 199 cents, no error, dialog closed |
| `RaffleHero.QuantitySelector.AddQuantity` | components/raffle-hero.tsx:32-41 | the new state is `Added(old, amount)`; the invariants are kept |
| `RaffleHero.QuantitySelector.SelectPricingTier` | components/raffle-hero.tsx:43-48 | the new state is `TierSelected(old, minQty)`, which is always consistent |
| `RaffleHero.QuantitySelector.HandleQuantityChange` | components/raffle-hero.tsx:50-59 | the new state is `Typed(old, value)`; the invariants are kept |
| `RaffleHero.QuantitySelector.IncrementQuantity` | components/raffle-hero.tsx:61-66 | the new state is `Incremented(old)`; the invariants are kept |
| `RaffleHero.QuantitySelector.DecrementQuantity` | components/raffle-hero.tsx:68-77 | the new state is `Decremented(old)`; the invariants are kept |
| `RaffleHero.QuantitySelector.HandleCheckout` | components/raffle-hero.tsx:81-91 | the new state is `CheckedOut(old)`; from a consistent state the dialog always opens |
| `RaffleHero.QuantitySelector.CloseCheckout` | components/raffle-hero.tsx:238-240 | the dialog's `onClose` only closes it |
| `CheckoutModal.FormErrors` | components/checkout-modal.tsx:56-67 | the dictionary `validateForm` builds: one message per failing field (`FormValidIff`, `EmailRequiredNeverShown`) |
| `CheckoutModal.Submitted` | components/checkout-modal.tsx:69-112 | `handleSubmit` as a transition: errors replaced by the form's, then `Answered` with whether the order is posted (`SubmitOutcomes`) |
| `CheckoutModal.Answered` | components/checkout-modal.tsx:97-109 | the reply's effect: a `success` reply to a posted order stores the transaction, moves to payment and starts polling; anything else changes nothing (`SubmitOutcomes`, `RouteRepliesReachDialog`) |
| `CheckoutModal.Polled` | components/checkout-modal.tsx:114-131 | one interval firing: "AUTHORIZED" moves to success and stops; the 300th tick stops in any case (`PollTickIsQuiet`, `PollingConfirmsIff`) |
| `CheckoutModal.Edited` | components/checkout-modal.tsx:145-150 | `handleInputChange` as a transition: the field takes the value and loses its error (`InputChangeIsLocal`) |
| `CheckoutModal.RouteRepliesReachDialog` | components/checkout-modal.tsx:97-109 | the route's 200 reply moves a valid, accepted form to the payment step with the gateway's transaction id and PIX code, and polling on; its 500 error reply leaves the form step |
| `CheckoutModal.FormValidIff` | components/checkout-modal.tsx:56-67 | the form is valid iff name, phone and CPF are non-blank after trimming and the email contains `@` |
| `CheckoutModal.EmailRequiredNeverShown` | components/checkout-modal.tsx:60-61 | the email has an error iff it has no `@`, and the message is always "Email inválido", for a blank email too |
| `CheckoutModal.CollectErrors` | components/checkout-modal.tsx:57-64 | filling the dictionary check by check gives, per field, the message of its last failed check, and nothing for fields that pass |
| `CheckoutModal.OpenedWellFormed` | components/checkout-modal.tsx:43-53 | the dialog opens on the form step, without a transaction and not polling |
| `CheckoutModal.SubmitOutcomes` | components/checkout-modal.tsx:69-112 | the form is always validated; the step becomes "payment" iff the form is valid, the terms are accepted and the reply is a success, storing that transaction and starting to poll; otherwise it stays on "form" |
| `CheckoutModal.PollTickIsQuiet` | components/checkout-modal.tsx:114-131 | a tick changes only the tick count unless it confirms; the step becomes "success" only on an "AUTHORIZED" answer while polling |
| `CheckoutModal.PollingConfirmsIff` | components/checkout-modal.tsx:114-131 | the payment is confirmed iff one of the replies within the remaining ticks is "AUTHORIZED"; polling stops on confirmation and after 300 ticks in all |
| `CheckoutModal.PollsStopped` | components/checkout-modal.tsx:120-130 | once the interval is cleared, later ticks change nothing |
| `CheckoutModal.InputChangeIsLocal` | components/checkout-modal.tsx:145-150 | typing changes only the named field and clears only that field's error |
| `CheckoutModal.TypedDocumentReachesGateway` | components/checkout-modal.tsx:234-246 | a phone or CPF typed through its mask reaches the gateway as its first eleven digits |
| `CheckoutModal.ConsistentOrderPassesGates` | components/checkout-modal.tsx:81-91 | an order the selector lets through, with a valid form, passes every route gate once the secret is configured |
| `CheckoutModal.CheckoutSession.constructor` | components/checkout-modal.tsx:42-53 | the session starts on the form step with an empty form, terms unticked, no errors, no transaction and not polling; it is created once, with the page, and keeps its state across closing and reopening |
| `CheckoutModal.CheckoutSession.SetAcceptTerms` | components/checkout-modal.tsx:255 | the checkbox sets `acceptTerms` and nothing else |
| `CheckoutModal.CheckoutSession.ValidateForm` | components/checkout-modal.tsx:56-67 | the errors become `FormErrors(customer)` and the result is whether there are none |
| `CheckoutModal.CheckoutSession.HandleSubmit` | components/checkout-modal.tsx:69-112 | the new state is `Submitted(old, reply)`; an order is sent iff the form is valid and the terms accepted, and it carries the customer with the quantity, unit price and total the hero passes at the moment of the click; the step-machine invariant is kept |
| `CheckoutModal.CheckoutSession.TakeReply` | components/checkout-modal.tsx:97-109 | after an order was posted, a successful reply stores the transaction, moves to the payment step and starts polling from tick 0; any other reply, or no post at all, leaves the state as it was; the step-machine invariant is kept |
| `CheckoutModal.CheckoutSession.PollTick` | components/checkout-modal.tsx:115-130 | the new state is `Polled(old, reply)`; the invariant (polling only in "payment", at most 300 ticks) is kept |
| `CheckoutModal.CheckoutSession.HandleInputChange` | components/checkout-modal.tsx:145-150 | the new state is `Edited(old, field, value)` |
| `CheckoutModal.CheckoutSession.TypeInto` | components/checkout-modal.tsx:208-246 | each input hands its masked value (phone and CPF) or its raw value to `handleInputChange` |
| `InputMasks.FormatCPF` | components/checkout-modal.tsx:152-159 | `formatCPF`: the digits, then the four replacements in order (`FormatCPFIsShape`, `FormatCPFKeepsDigits`, `FormatCPFFitsMask`, `FormatCPFIdempotent`) |
| `InputMasks.FormatPhone` | components/checkout-modal.tsx:161-167 | `formatPhone`: the digits, then the three replacements in order (`FormatPhoneIsShape`, `FormatPhoneKeepsDigits`, `FormatPhoneFitsMask`, `FormatPhoneIdempotent`) |
| `InputMasks.FirstDigitRun` | components/checkout-modal.tsx:155 | the match a non-global digit pattern replaces is the leftmost run of that many digits |
| `InputMasks.FirstDashTail` | components/checkout-modal.tsx:158 | the match of the trailing-digits pattern is the leftmost dash followed by the kept digits and more digits up to the end |
| `InputMasks.CpfFirstDot` | components/checkout-modal.tsx:155 | the first replacement puts a dot after the third digit once there are four |
| `InputMasks.CpfSecondDot` | components/checkout-modal.tsx:156 | the second replacement puts a dot after the sixth digit once there are seven |
| `InputMasks.CpfDash` | components/checkout-modal.tsx:157 | the third replacement puts a dash after the ninth digit once there are ten |
| `InputMasks.CpfCut` | components/checkout-modal.tsx:158 | the last replacement drops every digit after the eleventh |
| `InputMasks.FormatCPFIsShape` | components/checkout-modal.tsx:152-159 | `formatCPF` is the closed form `ddd.ddd.ddd-dd` of the input's digits, filled from the left and cut at eleven |
| `InputMasks.FormatCPFKeepsDigits` | components/checkout-modal.tsx:152-159 | the output's digits are the input's digits, in order, truncated to eleven |
| `InputMasks.FormatCPFFitsMask` | components/checkout-modal.tsx:152-159 | the output is a prefix of the mask `000.000.000-00`, digit for digit and separator for separator |
| `InputMasks.FormatCPFIdempotent` | components/checkout-modal.tsx:152-159 | formatting twice equals formatting once |
| `InputMasks.PhoneParens` | components/checkout-modal.tsx:164 | the first replacement wraps the area code in parentheses once there are three digits |
| `InputMasks.PhoneDash` | components/checkout-modal.tsx:165 | the second replacement puts a dash after the seventh digit once there are eight |
| `InputMasks.PhoneCut` | components/checkout-modal.tsx:166 | the last replacement drops every digit after the eleventh |
| `InputMasks.FormatPhoneIsShape` | components/checkout-modal.tsx:161-167 | `formatPhone` is the closed form `(dd) ddddd-dddd` of the input's digits, filled from the left and cut at eleven |
| `InputMasks.FormatPhoneKeepsDigits` | components/checkout-modal.tsx:161-167 | the output's digits are the input's digits, in order, truncated to eleven |
| `InputMasks.FormatPhoneFitsMask` | components/checkout-modal.tsx:161-167 | from three digits on, the output is a prefix of `(00) 00000-0000`; below that it is the bare digits |
| `InputMasks.FormatPhoneIdempotent` | components/checkout-modal.tsx:161-167 | formatting twice equals formatting once |
| `CreateTransaction.FirstFailingGate` | app/api/create-transaction/route.ts:23-53 | the response of the first gate that fails, in the route's order, or none (`GatesInOrder`, `GateStatuses`) |
| `CreateTransaction.BuildRequest` | app/api/create-transaction/route.ts:55-72 | the transaction request sent to the gateway (`RequestReachingGateway`) |
| `CreateTransaction.SuccessResponse` | app/api/create-transaction/route.ts:80-89 | the 200 reply to a created transaction (`SuccessCopiesTransaction`, `RouteRepliesReachDialog`) |
| `CreateTransaction.ErrorResponse` | app/api/create-transaction/route.ts:90-100 | the 500 reply to a thrown error (`ErrorCarriesMessage`, `RouteRepliesReachDialog`) |
| `CreateTransaction.Post` | app/api/create-transaction/route.ts:16-101 | a malformed body gives the 500 error response; otherwise the first failing gate's response is returned and the gateway is not called; when all gates pass, exactly the built request is sent and the reply is mapped to the success or error response |
| `CreateTransaction.GatesInOrder` | app/api/create-transaction/route.ts:23-53 | each rejection happens iff every earlier gate passes and its own fails: fields, customer, secret, total |
| `CreateTransaction.ZeroQuantityIsMissing` | app/api/create-transaction/route.ts:23-26 | quantity 0 is reported as a missing field |
| `CreateTransaction.GateStatuses` | app/api/create-transaction/route.ts:23-53 | gate rejections carry no details and are 400, except the missing secret, which is 500 |
| `CreateTransaction.RequestReachingGateway` | app/api/create-transaction/route.ts:55-72 | the request has one item with the body's price and quantity, the body's total within a cent of their product, PIX, and the normalised customer |
| `CreateTransaction.TwoCentsOffIsRejected` | app/api/create-transaction/route.ts:49-53 | a total two cents off is rejected and one cent off is accepted |
| `CreateTransaction.SuccessCopiesTransaction` | app/api/create-transaction/route.ts:80-89 | the 200 response copies id, external id, status and total value, and the PIX payload |
| `CreateTransaction.ErrorCarriesMessage` | app/api/create-transaction/route.ts:90-100 | a thrown error gives 500 "Erro ao processar pagamento" with the message as details |
| `LiraPay.FormatCustomerData` | lib/lirapay.ts:165-181 | `formatCustomerData` (`FormatCustomerDataSpec`, `FormatCustomerDataIgnoresSeparators`, `FormatCustomerDataKeepsDigits`) |
| `LiraPay.GetClientIP` | lib/lirapay.ts:149-162 | `getClientIP` on the request's headers (`ClientIPFromForwarded`, `ClientIPFirstEntry`, `ClientIPFallbacks`) |
| `LiraPay.FormatCustomerDataSpec` | lib/lirapay.ts:165-181 | name and email are copied; phone and document are digits only, in the order typed; the document type is "CPF" and the utm tags are fixed |
| `LiraPay.FormatCustomerDataIgnoresSeparators` | lib/lirapay.ts:174-176 | inserting non-digit separators into phone or document changes nothing |
| `LiraPay.FormatCustomerDataKeepsDigits` | lib/lirapay.ts:174-176 | a digits-only phone and document pass unchanged |
| `LiraPay.ClientIPFromForwarded` | lib/lirapay.ts:153-155 | with a non-empty `x-forwarded-for`, the address is its first comma-separated entry, trimmed, with no comma in it |
| `LiraPay.FirstEntryTrimmed` | lib/lirapay.ts:154 | the trimmed first entry is a slice of the header that contains no comma and has no whitespace at either end |
| `LiraPay.ClientIPFirstEntry` | lib/lirapay.ts:153-155 | a clean address in front of the list is reported exactly |
| `LiraPay.ClientIPFallbacks` | lib/lirapay.ts:157-161 | otherwise a non-empty `x-real-ip` is reported, and failing that "127.0.0.1" |
| `PrizeSection.Flatten` | components/prize-section.tsx:77-78 | the `flatMap` that tags each number with its tier's value (`FlattenLength`, `FlattenEntries`) |
| `PrizeSection.MainPrizes` | components/prize-section.tsx:71-78 | `mainPrizes`: the entries of tiers worth at least R$ 1000 (`MainPrizesAreFiltered`) |
| `PrizeSection.AvailablePrizes` | components/prize-section.tsx:79 | `availablePrizes`: the unsold entries (`AvailableAndSoldPartition`) |
| `PrizeSection.SoldPrizes` | components/prize-section.tsx:80 | `soldPrizes`: the sold entries (`AvailableAndSoldPartition`, `SoldPrizesCount`) |
| `PrizeSection.FilteredPrizes` | components/prize-section.tsx:82-94 | `getFilteredPrizes` for a tab and the show-all toggle (`TabsSelect`) |
| `PrizeSection.FlattenLength` | components/prize-section.tsx:77 | `allPrizes` is as long as the tiers' number lists together |
| `PrizeSection.FlattenEntries` | components/prize-section.tsx:77 | an entry is in the flattened list iff it is some tier's number tagged with that tier's value |
| `PrizeSection.MainPrizesAreFiltered` | components/prize-section.tsx:71-78 | `mainPrizes` is exactly the entries of `allPrizes` worth at least 1000, in the same order |
| `PrizeSection.AvailableAndSoldPartition` | components/prize-section.tsx:79-80 | available and sold entries split `allPrizes` as a multiset; their lengths add up, and available never exceeds the total |
| `PrizeSection.SoldPrizesCount` | components/prize-section.tsx:80 | the sold list has one entry per sold number of every tier |
| `PrizeSection.TabsSelect` | components/prize-section.tsx:82-92 | every view is an order-preserving subsequence of the shown set; "disponiveis" holds exactly its unsold entries, "compradas" exactly its sold ones, "todas" all of it |
| `PrizeSection.PageCounts` | components/prize-section.tsx:9-106 | the page's table has 39 numbers, 9 main prizes, 8 sold and 31 available |
| `Sequences.Filter` | components/prize-section.tsx:79-80 | a filter keeps only elements that pass, all taken from the input, and never grows |
| `Sequences.FilterPartition` | components/prize-section.tsx:79-80 | filtering by a predicate and by its negation loses and duplicates nothing |
| `Text.Digits` | lib/lirapay.ts:174 | removing non-digits leaves only digits |
| `Text.DigitsInOrder` | lib/lirapay.ts:174-176 | the digits kept are the input's, in their order |
| `Text.DigitsIdempotent` | lib/lirapay.ts:174-176 | removing non-digits twice equals doing it once |
| `Text.Trim` | lib/lirapay.ts:154 | `String.prototype.trim` (`BlankIff`, `TrimIsSlice`, `TrimmedEnds`) |
| `Text.BlankIff` | components/checkout-modal.tsx:59-63 | a string trims to empty iff every character is white space |
| `Text.TrimIsSlice` | lib/lirapay.ts:154 | trimming leaves a contiguous slice of the input |
| `Text.TrimmedEnds` | lib/lirapay.ts:154 | a trimmed string neither starts nor ends with white space |
| `Text.BeforeComma` | lib/lirapay.ts:154 | `split(",")[0]` is a comma-free prefix, followed by a comma whenever it is shorter than the input |
| `Text.BeforeCommaOf` | lib/lirapay.ts:154 | a comma-free first entry is read back whole |
| `Text.ParseInt` | components/raffle-hero.tsx:51 | `Number.parseInt` without a radix; `None` is NaN (`ParseIntToString`, `TypedNumber`) |
| `Text.IntToString` | components/raffle-hero.tsx:143-144 | `String(n)` of an integer, as an input field holds it (`ParseIntToString`) |
| `Text.ParseIntToString` | components/raffle-hero.tsx:51 | `Number.parseInt` reads back every integer written in decimal |

## Left out

- Rendering is not modelled: JSX, styles, icons and dialogs. This also leaves out `toLocaleString` currency formatting, the QR-code image URL, the copy-PIX button with its 2-second reset, `alert` and `console` logging.
- Money is in integer cents, so the hero's `toFixed(2)` rounding is exact. The route's 0.01 tolerance becomes one cent.
- Request bodies are well-typed. A field missing from the JSON is modelled as `0` or `""`, which the gates treat like `undefined`. Values of another JSON type are not modelled. A numeric string such as `"5"` is converted by `*` and acts like its number in the total gate, but `"0"` is truthy and passes the required-fields gate where `0` does not. A non-numeric string makes the product NaN; the tolerance comparison is then false, and the request passes the total gate.
- The network is not modelled: the LiraPay client's `fetch` calls, the check-transaction endpoint and the webhook endpoint. The gateway is the `gateway` parameter of `CreateTransaction.Post`. Each poll's answer is the `PollReply` argument of a tick.
- `generateExternalId` depends on the clock and a random source; it is the `externalId` parameter.
- Timers are discrete ticks. Each tick issues its request and applies its answer before the next tick. A request still in flight when the interval is cleared could still move the dialog to "success"; that is not modelled.
- `CheckoutModal.PollingConfirmsIff`: on the 300th tick the interval's answer is applied before the 15-minute timeout clears it. The source leaves this order to the timer queue.
- `CheckoutModal.CheckoutSession.HandleSubmit` requires the form step. The submit button exists only there, so the model never starts a second polling interval.
- The dialog's `loading` flag only disables the submit button while a request runs; it is not modelled.
- Closing the dialog does not stop polling in the source either. The session therefore has no close operation; the hero's `CloseCheckout` only hides the dialog.
- The terms checkbox's "indeterminate" value is not modelled; `acceptTerms` is a boolean.
- A cleared field error is removed from the dictionary. The source sets it to `undefined`, which every reader treats the same way.
- `Text.ParseInt` is exact for numerals of any length; JavaScript rounds beyond 2^53. Exponents and fractions are irrelevant to `parseInt`.
- A non-`Error` value thrown at the route becomes the details text "Erro desconhecido". The `Threw` message of the gateway oracle carries that text.
- components/promotion-tiers.tsx, components/footer.tsx, components/group-section.tsx, app/layout.tsx and app/page.tsx are not part of this model. They are static markup, scrolling and clipboard wiring.
