# The ledgers and protocols of TotNet

TotNet sells subscriptions through a bot. Its difficult parts are ledgers that several services
write in single transactions, and one protocol around a remote provider. This project models them
and proves what every step and every run keeps.

Each transaction is one step. A step that raises changes nothing: specification functions answer
`None`, `Err` or a refusal, and the methods put back what they had changed. Amounts are integers:
points in units of the eighth decimal place, prices in cents, wallet money in units of the tenth
decimal place, so that a point amount times a price is an exact amount of wallet money. Instants
are integers; where a service reads the clock more than once, each reading is its own parameter.

| module | content |
|---|---|
| Prelude, Decimals | sums over rows; division at forty digits, rounding half up |
| Wallets | the wallet ledger: credits, debits, limits, idempotency keys |
| PointBoxes | capacity-bounded boxes as two running totals poured into slots |
| RewardAccounts | claims, changes of the reference service and redemptions as steps, and their invariant |
| RewardDesk, BrandRewards | the same as an object whose loops are proved to have those effects; all accounts of a brand in one transaction |
| AccountOutcomes | exactly when a change of service, a claim and a redemption go through, and what they move |
| Coupons, CouponOutcomes | discount codes and their quotas; which codes are accepted and what they give |
| Checkout, CheckoutDesk | orders, payments, refunds, cancellation; as steps and as an object |
| ShopOutcomes | exactly which payments, cancellations and confirmations go through |
| RefusedInstalment | a run after which the wallet is refused for an order |
| Pills, PillOutcomes | points cashed in groups of three |
| Challenges, ChallengeOutcomes | stakes, provisional rewards, settlement |
| MoneyRuns | all of the above on one wallet: conservation over every run |
| Provisioning | concurrent tasks around a remote service, with losses and crashes |
| CardQuotes, QuoteOutcomes | unambiguous bank-transfer amounts |
| GiftClaims, GiftOutcomes | two ways to claim a gift, and the referral it brings |
| ProtectedDeletion | recursive deletion through protecting references |

A service that changes rows step by step is a class whose methods have the loops and branches of
the code; every such method is proved equal to a specification function, and the lemmas are about
that function. The modules named after outcomes say of each operation exactly when it goes through and what
it then moves, in terms of the state before it.

## Where the code does not do what one expects

- A partial payment after refunds can be refused although money is due and available: the key of an
  instalment is the order's confirmed total, and a refund can bring an old total back.
  `Checkout.InstalmentGoesThrough` says exactly when an instalment goes through;
  `RefusedInstalment.RefundsCanBlockInstalments` is a run from an empty shop to such a refusal. Outside
  of a cancellation a payment becomes refunded only by an administrator's edit of it.
- A provisioning attempt that finds no active provider is recorded as retryable, but it counts as a
  started attempt. A subscription recorded as retryable is ever taken up again if and only if an
  identity was saved (`Provisioning.RetriedOnlyWithIdentity`), and the missing provider is the only
  step that records one without (`Provisioning.MisrecordedByNoProvider`); a first attempt without a
  provider always ends so (`Provisioning.RetryableIsNotRetried`).
- An error that the provider's code knows, such as a failed lookup, is recorded for review and not as
  retryable even when the account was saved before it; a later task takes the subscription up all the
  same (`Provisioning.KnownErrorIsTakenUp`).
- The claimant on a gift voucher need not be the recipient of the gift: while the claimant's profile
  is incomplete, somebody else can claim by the account name noted on the order, which only an
  administrator enters there. Claimant and recipient agree over a run if and only if no such claim
  went through on a gift whose link somebody else had reserved (`GiftClaims.AgreedOverRuns`).
- Admin deletion gives up exactly when a reference cycle that contains a protecting reference reaches
  a target; cycles of cascading references alone are deleted
  (`ProtectedDeletion.Deletion.DeleteWithProtectedRelations`).
- A coupon cap of zero is no cap for an order but leaves a wallet nothing (`Coupons.CapOfZero`); the two
  readings of a cap agree for all positive amounts if and only if it is not zero (`Coupons.CapsAgree`).

## Model

| member | source | states |
|---|---|---|
| Decimals.LedgerQuotientIsFloor | apps/referrals/services.py:612-618 | dividing at forty significant digits, half even, and cutting to eight places is the exact integer quotient for every dividend that fits the ledger's value column, at any positive price |
| Decimals.Money | apps/referrals/gamification.py:36-38 | the rounded amount is within half a unit of the value, ties up, and never negative |
| Decimals.MoneyByCurrency | apps/referrals/gamification.py:36-38 | Toman and Rial amounts are whole and within half a unit; other currencies keep their hundredths |
| Wallets.Wallet.CreateRow | apps/orders/signals.py:45-88 | earlier rows stay, the new row continues from the old balance and ends at the new one, the balance moves by the row's signed amount, and a chained ledger stays chained |
| Wallets.Wallet.CreditWallet | apps/orders/services.py:244-293 | a repeated key with the same amount changes nothing, with another amount is refused; otherwise only a usable wallet is credited, by one row |
| Wallets.Wallet.DebitWallet | apps/orders/services.py:297-369 | the same for debits, which also need the balance and both spending limits |
| Wallets.RowsMeet | apps/orders/signals.py:45-88 | where one row ends the next begins, and the last ends at the balance |
| Wallets.DebitKeepsLimit | apps/orders/services.py:335-357 | a checked debit keeps a spending limit in every period, also when a period ends between the check and the row's time stamp |
| Wallets.DebitKeepsSound | apps/orders/services.py:297-369 | after a debit the chain, the non-negative balance, distinct keys, all limits and the backing of discounts by reward cash still hold |
| Wallets.SpendableIsAccepted | apps/orders/services.py:42-61 | what was read as spendable is accepted by a debit at any later time, over day and month ends |
| Wallets.SpendableIsExact | apps/orders/services.py:42-61 | at one instant a whole-cent payment with a new key is accepted if and only if it is not more than the spendable cash |
| Wallets.CreditGoesThrough | apps/orders/services.py:258-293 | a credit is accepted exactly for a positive amount of a credit kind whose key is in the ledger with this amount, or is new and the wallet usable; only a new one moves the balance |
| Wallets.DebitGoesThrough | apps/orders/services.py:311-369 | a debit is accepted exactly for a positive amount of a debit kind whose key is in the ledger with this amount, or is new, the wallet usable and covering it, and both limits kept |
| Wallets.DayBegins | apps/orders/services.py:47-48 | a day begins at midnight and lasts 86400 seconds |
| PointBoxes.BatchesDoNotMatter | apps/referrals/services.py:250-300 | placing p and then q points gives the same boxes, states and cycle counter as placing p + q at once |
| PointBoxes.PlacedIsCanonical | apps/referrals/services.py:250-300 | placing fills exactly the placed points, spends none, and leaves the boxes as running totals poured from the left |
| PointBoxes.FillStep | apps/referrals/services.py:288-300 | filling or completing the first open box is moving the filled total of the poured layout, whatever the other boxes hold |
| PointBoxes.SpendStep | apps/referrals/services.py:822-831 | spending from the first completed box that has something left is moving the spent total |
| PointBoxes.OnlyFirstOpenIsPartlyFilled | apps/referrals/services.py:259-268 | at most the first open box is partly filled, and no box after it is complete |
| PointBoxes.UnspentIsDifference | apps/referrals/services.py:288-300 | what completed boxes offer is completed capacity less what was spent, and with the open boxes' points it is all that is outstanding |
| PointBoxes.DrawsDoNotMatter | apps/referrals/services.py:812-833 | spending p and then q points is spending p + q at once |
| PointBoxes.FirstOpenIsEarliest | apps/referrals/services.py:259-268 | the first open box in the list is the one that the query by cycle and sequence returns |
| RewardAccounts.RebaseConserves | apps/referrals/services.py:539-664 | a change of service conserves value exactly: live value before is cash paid plus live value after; the cash beyond completed value is less than one point unit at the new price; old boxes are retired and kept |
| AccountOutcomes.ChangeGoesThrough | apps/referrals/services.py:539-664 | a change of service goes through exactly when the service can be seeded or only a rest is paid, the incomplete value fits the ledger's column at a positive price, and the wallet is usable for any cash due |
| AccountOutcomes.ChangeMoves | apps/referrals/services.py:595-664 | the cash is the completed value and the rest, the points are the whole quotient, and they fill the fewest cycles that leave an open box unless the rest is paid |
| AccountOutcomes.SwitchGoesThrough | apps/referrals/services.py:211-221 | an administrator's change goes through exactly for an active, priced, seedable service of a plan with a currency and an account that can change |
| RewardAccounts.OnlyTheseAreLive | apps/referrals/services.py:551-583 | the boxes selected by the former service are all that is live, so their sums miss nothing and retiring them retires everything |
| RewardAccounts.BrandConserves | apps/referrals/services.py:667-692 | a brand-wide change of service conserves live value plus balance for every account and in total |
| RewardAccounts.RebasedParts | apps/referrals/services.py:539-664 | how wallet, ledger, boxes and counter move: both credits are really posted, and incomplete value is points times new price plus remainder |
| RewardAccounts.ReasonIsFresh | apps/referrals/services.py:584-590 | no wallet or ledger row ever carried the reason under which an account is rebased now |
| RewardAccounts.ReasonsNeverRepeat | apps/referrals/services.py:684-689 | between two changes into the same service the cycle counter grows in every run, also when the first created no box |
| RewardAccounts.RunKeepsInv | apps/referrals/services.py:446-536 | every run of claims, changes of service and redemptions, with any other wallet activity between them, keeps the invariant, and used reasons stay used |
| RewardAccounts.ReachableAccounts | apps/referrals/services.py:695-833 | in every reachable account the ledger's points are those outstanding in live boxes, liquid points are completed capacity less spending, granted value is live, paid out or redeemed, only the reference service has live boxes, and ledger keys differ |
| AccountOutcomes.RedemptionCosts | apps/referrals/services.py:793-809 | a redemption costs exactly the service's price: redeemable points, outstanding points and the point ledger fall by it, at the service's value, and the wallet and everything else stay |
| AccountOutcomes.RedemptionGoesThrough | apps/referrals/services.py:706-740 | a new request is redeemed exactly when it holds the nonce, the service is active, the account can be on it, and its redeemable points cover a positive price for a plan with a provider |
| RewardAccounts.ClaimedOnce | apps/referrals/services.py:465-470 | an achievement that cannot be repeated is granted once: every later claim raises, whatever happened in between |
| RewardAccounts.ClaimNeedsProgress | apps/referrals/services.py:411-427 | every claim of a repeatable achievement needs its targets once more: all its claims so far are covered by each metric |
| AccountOutcomes.ClaimGoesThrough | apps/referrals/services.py:446-536 | a claim goes through exactly for a complete achievement not granted for good, that gives something, when its points can be granted and its cash paid |
| AccountOutcomes.ClaimMoves | apps/referrals/services.py:487-536 | a claim grants exactly the points, of eight decimal places, and the cash, of ten, and the next claim number |
| RewardAccounts.RedeemedOnce | apps/referrals/services.py:697-712 | a redemption request that went through answers later without any change |
| RewardAccounts.LifetimeOfStep | apps/referrals/services.py:496-507 | the lifetime counter moves by exactly the points granted in the ledger |
| RewardDesk.RewardAccount.SeedBoxCycle | apps/referrals/services.py:228-247 | a cycle of empty boxes is created unless the service has no boxes or no value |
| RewardDesk.RewardAccount.PlacePoints | apps/referrals/services.py:250-300 | the loop ends with exactly the placed layout, liquid points grow by what was completed, each full box has one audit row, and it fails only where no box can be created |
| RewardDesk.RewardAccount.SettleOldBoxes | apps/referrals/services.py:550-628 | the value of the former service's completed boxes is paid, these boxes retire, liquid points become zero without the clamp being needed, and incomplete value is divided |
| RewardDesk.RewardAccount.AdoptService | apps/referrals/services.py:630-664 | the new service gets the divided points in as many new cycles as they need, an open box remains unless a remainder was paid, and the entries say so |
| RewardDesk.RewardAccount.RebaseAccount | apps/referrals/services.py:539-664 | the steps together have exactly the specified effect, whose success and moves are those of AccountOutcomes, and keep the invariant |
| RewardDesk.RewardAccount.SpendCompletedPoints | apps/referrals/services.py:812-833 | the loop falls short exactly when less is redeemable than asked for; otherwise the earliest completed boxes are used |
| RewardDesk.RewardAccount.SetActiveReferenceService | apps/referrals/services.py:684-689 | what the brand-wide loop does to one account: an invalid service or a failed step changes nothing, otherwise the account is rebased |
| BrandRewards.RewardProgram.SetActiveReferenceService | apps/referrals/services.py:667-692 | all accounts of a brand change together with the program, and succeed exactly when the service is valid and every account can change; otherwise none has changed |
| RewardDesk.RewardAccount.ClaimUserAchievement | apps/referrals/services.py:446-536 | a claim grants points, cash and the next claim number together or not at all |
| RewardDesk.RewardAccount.RedeemRewardService | apps/referrals/services.py:695-809 | a redemption happens once per request and never meets boxes that do not match the liquid points |
| Coupons.ApplyIsExact | apps/orders/coupons.py:78-108 | price plus discount is unchanged, the discount is whole units, one usage of this customer and order is recorded with it, and the price stays at least the confirmed total and one unit |
| CouponOutcomes.CodeGoesThrough | apps/orders/coupons.py:34-97 | a code is accepted exactly when nothing was used for the order, the code is live, open to it, within both quotas, and gives a discount the order can bear |
| CouponOutcomes.PercentageDiscount | apps/orders/coupons.py:83-92 | a percentage code gives that percentage of the price, at most the price and the cap, to the nearest unit |
| CouponOutcomes.FixedDiscount | apps/orders/coupons.py:88-92 | a fixed code gives its value, at most the price and the cap, to the nearest unit |
| CouponOutcomes.CashGoesThrough | apps/orders/services.py:373-410 | a code becomes cash exactly when it is live, unconditional, within both quotas and worth something, and then it is its value up to its cap |
| Coupons.ReleaseKeepsDesk | apps/orders/services.py:112-117 | a cancelled order has no usage left and each counter went down by the usages it gave back |
| Coupons.QuotasHold | apps/orders/coupons.py:73-77 | over every run of uses, cash-ins and cancellations a counter equals its usage rows, and total and personal quotas are not exceeded |
| Coupons.CapsAgree | apps/orders/services.py:404-406 | orders and wallets cap all positive amounts alike if and only if the cap is not zero |
| Coupons.CapOfZero | apps/orders/coupons.py:87-88 | a cap of zero takes nothing off an order's discount and refuses every wallet |
| Coupons.CouponDesk.ApplyPurchaseCoupon | apps/orders/coupons.py:22-108 | the checks, the discount and the rows of using a code, or no change |
| Coupons.CouponDesk.RedeemWalletCoupon | apps/orders/services.py:373-437 | usage, counter and wallet credit happen together or not at all, and only for a usable wallet in the brand's currency |
| Checkout.DebitNeverFails | apps/orders/services.py:173-223 | a payment that passed its own checks is never refused by the debit |
| Checkout.PayOutcome | apps/orders/services.py:124-240 | a payment is one row and one confirmed instalment of the due or of the rounded cash, whole thousands for Toman; the order is paid exactly when the due is covered |
| ShopOutcomes.PaymentGoesThrough | apps/orders/services.py:138-187 | a wallet payment goes through exactly for an order that is covered, or is open, allows credit and fits, with cash for it, and no instalment at the same confirmed total |
| ShopOutcomes.PaymentMoves | apps/orders/services.py:189-240 | the amount leaves the balance as one row and one instalment, and its reward-funded part is what reward cash beyond all earlier debits covers |
| ShopOutcomes.AmountIsLargest | apps/orders/services.py:173-177 | the amount is the due or the cash without the broken thousand of Toman, whichever is less |
| Checkout.CheckoutRoundedIsLargest | apps/orders/services.py:73-78 | the usable credit is the most that whole thousands of Toman allow |
| Checkout.InstalmentGoesThrough | apps/orders/services.py:182-187 | an instalment that is payable goes through exactly when no earlier one was taken at the same confirmed total, which holds as long as nothing of the order was refunded |
| RefusedInstalment.RefundsCanBlockInstalments | apps/orders/services.py:182-187 | a run from an empty shop whose refunds bring an old confirmed total back, so that a payable instalment is refused |
| Checkout.CancelReturnsEverything | apps/orders/services.py:81-120 | cancelling gives back exactly the confirmed wallet payments, ends with no live payment and no coupon usage, changes no other order, and repeated changes nothing |
| ShopOutcomes.CancelGoesThrough | apps/orders/services.py:92-104 | an order can be cancelled exactly when it is cancelled already, or is pending or awaits payment, is not covered and holds no confirmed outside payment |
| ShopOutcomes.InstalmentsComeBack | apps/orders/services.py:81-120 | any instalments that do not cover an open order without outside payments can be cancelled, and the balance is then what it was before the first |
| Checkout.PayThenCancel | apps/orders/services.py:81-120 | whenever an order can be cancelled after any wallet instalments, cancelling restores the balance |
| Checkout.RefundOneKeepsOk | apps/orders/signals.py:349-361 | a refunded payment is credited once, whether or not the wallet is usable, and the invariant holds |
| ShopOutcomes.ConfirmationGoesThrough | apps/orders/signals.py:154-304 | a payment is confirmed exactly while it waits and its order has no other outside payment; the order's total and status, or the wallet, follow |
| ShopOutcomes.DropGoesThrough | apps/orders/signals.py:309-344 | a payment is dropped exactly while it waits, and no money moves |
| Checkout.DiscountedKeepsOk | apps/orders/coupons.py:78-108 | using a code keeps the shop's invariant, the price plus discount, and a price not below the confirmed total |
| Checkout.DiscountsAreEarned | apps/orders/services.py:513-549 | reward-funded discounts of standing purchases never exceed the reward cash received |
| ShopOutcomes.StandingDiscountsAreShown | apps/orders/services.py:513-549 | when every discounted purchase stands, all recorded discounts are shown |
| ShopOutcomes.ReturnedDiscountsAreHidden | apps/orders/services.py:513-549 | without a standing purchase that holds wallet money nothing is shown |
| Checkout.ShopRunKeepsOk | apps/orders/signals.py:140-361 | every run keeps: sound ledger, fresh keys, one outside payment per order, paid orders covered, cancelled orders empty, quotas, and orders hold what the ledger sent them |
| CheckoutDesk.CheckoutCounter.PayOrderWithWallet | apps/orders/services.py:124-240 | the steps of a payment have exactly the specified effect and refusals change nothing |
| CheckoutDesk.CheckoutCounter.CancelUnpaidOrder | apps/orders/services.py:82-120 | the refunding loop, newest payment first, the dropped payments, the released coupon and the final status |
| CheckoutDesk.CheckoutCounter.OnConfirmed | apps/orders/signals.py:154-292 | the order is paid exactly when its confirmed total covers the price and awaits payment otherwise, no other order and not the wallet changes; a top-up leaves the orders alone and is in the ledger once |
| CheckoutDesk.CheckoutCounter.OnRefunded | apps/orders/signals.py:349-361 | only the payment's order changes, to refunded; an instalment is returned once, so that handling it again leaves the ledger as it is, and an outside payment moves no wallet money |
| CheckoutDesk.CheckoutCounter.OnDropped | apps/orders/signals.py:309-344 | only the payment's order changes: it awaits payment exactly when something is confirmed, and is cancelled only with nothing confirmed |
| Pills.CashOutSettles | apps/referrals/gamification.py:74-118 | whatever was cashed before, a cash-out leaves exactly the complete groups cashed and the wallet credited with what all groups are worth |
| PillOutcomes.CashOutGoesThrough | apps/referrals/gamification.py:74-118 | a cash-out fails exactly when something is due and the wallet cannot be used |
| PillOutcomes.GroupIsThree | apps/referrals/gamification.py:95-99 | a group is three pills and worth the rounded sum of their values |
| PillOutcomes.AwardGoesThrough | apps/referrals/services.py:1012-1055 | an award fails exactly when it completes something due that the wallet cannot take, and otherwise is one pill and one lifetime point |
| PillOutcomes.ProfilePillIsGranted | apps/referrals/services.py:1074-1125 | the profile pill is worth 10000 Toman and is awarded once, to a complete profile paid in Toman |
| Pills.SchedulesDoNotMatter | apps/referrals/gamification.py:74-118 | any interleaving of awards and cash-outs, some of them failing, ends after a last cash-out with the same groups, the same total and the same left-over |
| Pills.PillsArePaidOnce | apps/referrals/gamification.py:95-114 | no pill is paid for by two wallet rows |
| Pills.AnnouncedIsMissing | apps/referrals/tasks.py:333-348 | the announced number after an award is what the live box lacks |
| Pills.AnnouncedStays | apps/referrals/tasks.py:333-348 | the announcement for a pill never changes afterwards |
| Pills.PillAccount.CashOutCompletedPills | apps/referrals/gamification.py:74-118 | the loop over groups has exactly the specified effect, returns what it paid, and a refused credit undoes it |
| Pills.PillAccount.Award | apps/referrals/services.py:1012-1055 | a pill and the cash-out it triggers happen together or not at all |
| Pills.PillAccount.GrantProfileCompletionPill | apps/referrals/services.py:1074-1125 | the profile pill is granted once, and the returned number is what the live box lacks |
| Challenges.ActivateKeepsOk | apps/referrals/gamification.py:176-221 | entering freezes exactly what leaves the balance |
| ChallengeOutcomes.EntryGoesThrough | apps/referrals/gamification.py:176-221 | entering goes through exactly for the only challenge that awaits funds, with its program, tier and terms open and the fee coverable within the limits; it then runs for the program's days |
| ChallengeOutcomes.DeclineGoesThrough | apps/referrals/gamification.py:160-173 | an offer can be declined exactly while it is the only one |
| Challenges.SettlePays | apps/referrals/gamification.py:363-436 | settling fails only for an unusable wallet, returns the frozen fee, pays the prize of a success once and counts its points |
| Challenges.SettlementIsPossible | apps/referrals/gamification.py:375-379 | a running challenge below its target can be settled exactly when its time is over and the wallet is usable |
| Challenges.RecordKeepsOk | apps/referrals/gamification.py:264-360 | a recorded purchase is a new person's, and the one that meets the target settles the challenge at once |
| ChallengeOutcomes.PurchaseIsReserved | apps/referrals/gamification.py:264-360 | a purchase that belongs to a running challenge is reserved, unless it completes the target and the wallet cannot be used |
| ChallengeOutcomes.OtherPurchaseIsNot | apps/referrals/gamification.py:264-325 | a purchase that belongs to no running challenge is not reserved |
| ChallengeOutcomes.ReservedMoves | apps/referrals/gamification.py:326-436 | a reserved purchase adds one event; the last one needed brings the fee back and pays the rounded sum of all values |
| Challenges.ArenaRunKeepsOk | apps/referrals/gamification.py:122-436 | in every run the frozen balance is the rounded fees of running challenges, successes are distinct people below the target, rewards are provisional, paid or withheld by stage, and settled or declined challenges never change |
| Challenges.LifetimeOfRun | apps/referrals/gamification.py:396-408 | challenge points reach the lifetime counter exactly when a challenge succeeds |
| Challenges.ChallengeBoard.ChooseTier | apps/referrals/gamification.py:121-157 | refused exactly for a closed program or tier or a challenge that is not open; every other challenge, and every running, settled or declined one, stays as it is |
| Challenges.ChallengeBoard.ActivateFromWallet | apps/referrals/gamification.py:176-221 | debit, freeze and start together, or no change |
| Challenges.ChallengeBoard.SettleChallenge | apps/referrals/gamification.py:363-436 | release, prize, rewards and stage together, or no change |
| Challenges.ChallengeBoard.MaybeRecordReferral | apps/referrals/gamification.py:264-360 | which purchases count for a challenge, and what happens to the others |
| MoneyRuns.MoneyIsConserved | apps/orders/services.py:81-369 | over every run of all services, balance plus frozen stakes plus confirmed wallet payments is what came in from outside less what went out; limits, distinct keys and the bound on discounts hold too |
| MoneyRuns.LifetimeIsEarned | apps/referrals/services.py:1025-1032 | lifetime points are the achievement points granted, one for each pill and one for each purchase of a successful challenge |
| Provisioning.AtMostOneAccount | apps/subscriptions/tasks.py:40-107 | over every interleaving, loss and crash at most one create request is sent and at most one account exists, and a saved identity is that account's |
| Provisioning.SavedIdentityIsFinal | apps/subscriptions/services.py:319-340 | once an identity is saved it never changes and is only looked up |
| Provisioning.AbandonedIsHeld | apps/subscriptions/tasks.py:63-84 | a started attempt without a saved identity is held for good |
| Provisioning.GateNeedsIdentity | apps/subscriptions/tasks.py:63-91 | after a started attempt whose hold is over the gate opens exactly for a saved identity |
| Provisioning.MisrecordedByNoProvider | apps/subscriptions/services.py:49-83 | a step records a retry without a saved identity exactly when it finds no active provider for a subscription that is not live and has no identity |
| Provisioning.RetryableIsHonest | apps/subscriptions/tasks.py:109-236 | in every run whose attempts find a provider, retryable means that an identity was saved |
| Provisioning.UnsolvedIsRetryable | apps/subscriptions/tasks.py:109-236 | an attempt that ends by an escaping exception, or unsolved without a recorded problem, is recorded as retryable exactly for a saved identity and for review otherwise |
| Provisioning.SavedAccountIsRetried | apps/subscriptions/tasks.py:111-236 | in every run such an end after the account was saved leaves a retryable row, which a later task takes up once nothing is under way |
| Provisioning.KnownErrorIsTakenUp | apps/subscriptions/services.py:427-452 | an error known to the provider's code is recorded for review even for a saved account, and a later task takes it up all the same |
| Provisioning.RetriedOnlyWithIdentity | apps/subscriptions/tasks.py:63-84 | an attempted subscription with no task under way is ever taken up again if and only if an identity was saved, whatever is recorded about it |
| Provisioning.RetryableIsNotRetried | apps/subscriptions/services.py:49-83 | for every status and at every time a first attempt without an active provider is recorded as retryable and never taken up again, and no account is ever created |
| Provisioning.Subscription.PassGate | apps/subscriptions/tasks.py:40-107 | a task passes exactly for a subscription that is not live, in its first attempt or with a saved identity, and not within 300 seconds of the last start; only then one more attempt is counted |
| Provisioning.Subscription.RecordOutcome | apps/subscriptions/tasks.py:109-236 | after an exception, or a return without success or a recorded problem, the row is retryable exactly for a saved identity and held for review otherwise; a recorded problem stays |
| CardQuotes.RunKeepsOk | apps/orders/checkout_links.py:36-78 | over every run the suffix amounts of a card are pairwise different, a quote's window ends before its amount is given up, and issued quotes keep their amounts |
| CardQuotes.SmallestFreeAmount | apps/orders/checkout_links.py:57-67 | the smallest free extra is issued, and a new order is refused exactly when every amount of the window is taken |
| CardQuotes.RoomMeansQuote | apps/orders/checkout_links.py:57-67 | fewer quotes in the window than the limit leave a free amount |
| QuoteOutcomes.QuoteIsRenewed | apps/orders/checkout_links.py:42-53 | an existing quote is renewed exactly for the same card and due inside its seven days, for another day at most up to them |
| QuoteOutcomes.QuoteIsNew | apps/orders/checkout_links.py:54-78 | a new quote waits one day and keeps its amount for seven; without a suffix it is for the due |
| QuoteOutcomes.ExtraIsSmallest | apps/orders/checkout_links.py:55-67 | the extra is the smallest free one in whole Toman or tens of Rial, from one to the card's limit of at most 99 |
| CardQuotes.QuoteTable.ReserveCardQuote | apps/orders/checkout_links.py:24-78 | renewal, refusal and allocation step by step; a refusal leaves the table as it was |
| GiftClaims.RunKeepsOk | apps/orders/checkout_links.py:114-229 | over both claim paths claimant, recipient and invitation are written once, a handed gift belongs to its recipient, and referral counters equal the rows |
| GiftClaims.HeldThenFinished | apps/orders/checkout_links.py:211-229 | any number of claims held for the profile, made in any order and finished together later, end as direct claims with a complete profile taken in voucher order |
| GiftClaims.LinkHandsToClaimant | apps/orders/checkout_links.py:139-160 | through the link the claimant becomes recipient and owner exactly when the profile is complete |
| GiftOutcomes.ClaimGoesThrough | apps/orders/checkout_links.py:117-135 | a claim is accepted exactly for a paid gift of somebody else, by an active user, through a link that is free and unexpired or reserved for the user, with no other recipient |
| GiftOutcomes.ClaimMoves | apps/orders/checkout_links.py:136-188 | it reserves the link, and with a complete profile hands the gift over and books the buyer's invitation of a new member who has none |
| GiftOutcomes.NameGoesThrough | apps/subscriptions/claims.py:16-67 | a claim by name is accepted exactly for a paid gift of somebody else, not handed over, that has this recipient or names this user |
| GiftOutcomes.InvitationCounts | apps/referrals/services.py:136-198 | an invitation counts exactly for a known user not invited before, through an active link of another known user |
| GiftClaims.NameAgreesWithLink | apps/subscriptions/claims.py:49-67 | a claim by name makes claimant, recipient and owner one person exactly when the claimant had reserved the link |
| GiftClaims.AgreedOverRuns | apps/subscriptions/claims.py:49-67 | over every run nobody but the recipient has reserved a gift's link if and only if no claim by name went through on a link reserved by somebody else |
| GiftClaims.ClaimantNeedNotBeRecipient | apps/subscriptions/claims.py:49-67 | a run in which the voucher's claimant is not the recipient |
| GiftClaims.GiftRegistry.AttributeReferral | apps/referrals/services.py:136-198 | the first valid invitation creates one row and moves both counters, any other changes nothing |
| GiftClaims.GiftRegistry.ClaimGift | apps/orders/checkout_links.py:114-208 | the order of the checks, the reservation and the hand-over |
| GiftClaims.GiftRegistry.CompleteClaimedGifts | apps/orders/checkout_links.py:211-229 | all held hand-overs are finished, or none |
| GiftClaims.GiftRegistry.ClaimDesignatedGift | apps/subscriptions/claims.py:12-91 | who claims is recipient and owner, once and never the buyer; vouchers, other gifts and recipients already set stay as they are, and a refusal changes nothing |
| ProtectedDeletion.KnotsSurvive | apps/accounts/admin_delete.py:36-55 | deleting an unprotected cascade closure removes no row of a cycle that contains a protecting reference |
| ProtectedDeletion.SomeRowGuardsItself | apps/accounts/admin_delete.py:31-33 | if each row of a set guards another of the set, some row guards itself, so a repeated marker means a cycle |
| ProtectedDeletion.Deletion.ClearAndDelete | apps/accounts/admin_delete.py:36-60 | the retry loop ends, and no report comes up twice |
| ProtectedDeletion.Deletion.DeleteModelRows | apps/accounts/admin_delete.py:26-62 | the recursion ends on every finite table, cycles included, deletes only rows that reach a target, and gives up only at a circular protection |
| ProtectedDeletion.Deletion.DeleteWithProtectedRelations | apps/accounts/admin_delete.py:14-23 | it succeeds exactly when no cycle with a protecting reference reaches a target; then exactly the rows that reach a target are gone, otherwise none |

## Left out

- RewardDesk.RewardAccount.RedeemRewardService: the order and the subscription that a redemption creates are not modelled; `ready` stands for an active provider of the plan.
- RewardDesk.RewardAccount.ClaimUserAchievement: the metrics of the moment are given; how they are counted is not modelled.
- RewardDesk.RewardAccount.PlacePoints: of a completed box's audit row only that it exists is modelled; its key is built from the box and cannot repeat.
- Challenges.ChallengeBoard.MaybeRecordReferral: the status of the referral itself and its conversion date are not written.
- Pills.PillAccount.Award: level bonuses and the referral's own status are not modelled.
- Challenges.RecordKeepsOk: the dates of the referred person and the earlier purchases are parameters.
- Checkout.ShopRunKeepsOk: reversals of top-ups and the deletion of ledger rows are not steps; the code lets them break the balance. An administrator's free choice of a payment's status is limited to confirming, rejecting and refunding.
- Checkout.PayOutcome: the order is the customer's own and the wallet exists; failed look-ups of rows are not modelled beyond a missing order.
- Pills.SchedulesDoNotMatter: pills are listed by creation time and key, which are taken to agree; an order is rewarded once by a database constraint.
- Coupons.CouponDesk.ApplyPurchaseCoupon: codes are identified by number; campaign links and earlier purchases are facts given with the request.
- Provisioning.AtMostOneAccount: the provider of a subscription does not change, only these tasks save an identity, and one request creates at most one account. The bot's `create_subscription` helper, which would bypass the gate, has no caller.
- ProtectedDeletion.Deletion.DeleteOrReport: the collector reports all protecting referrers of the cascade closure; references that are set to null do not count.
- GiftClaims.HeldThenFinished: time stamps and display names are not modelled.
- `liquid_points` has two writers, the boxes and the pills; each is modelled on its own, and the invariants of the boxes are about runs of box operations.
- Values that overflow their database columns raise in the database and are not modelled, except for the dividend of a rebase; sums that fit the value column are exact in the default decimal context.
- Key strings are constructors: two keys are equal when their parts are.
- Levels and their bonuses, referral caps, expiry and the rewards' percentages, which decide only the value of a pill.
- Token strings, messages, notifications, tasks that run after a commit, and the bot.
