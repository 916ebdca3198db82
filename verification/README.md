# Subscription entitlements for NarrateEMS, in Dafny

This project models the subscription-entitlement state machine of the NarrateEMS
product and proves properties about it. The state machine has three parts.

- **The Stripe webhook** reconciles billing events into two tables: `squads` and
  `user_subscriptions`. The events are checkout completed, subscription
  updated, subscription created, subscription deleted, and invoice paid. A
  subscription belongs to a squad when a squad row carries its
  `stripe_subscription_id`. In that case status changes go to the squad first
  and then cascade to every member row.
- **Invite acceptance** puts a user into an active squad. It upserts the
  user's row and then marks the invite accepted.
- **The checkout route** validates a sign-up, refuses a user who is already
  active, and builds the Stripe Checkout Session. The session carries the
  plan's line items and the chart allowance the webhook later grants.

The store is modelled twice:

- As a value (`Entitlements.Db`). The pure transitions of `Reconcile` and
  `InviteAcceptance` carry the properties.
- As an object (`Database.Store`) whose tables the handlers of `Webhook` and
  `InviteAcceptance.AcceptSquadInvite` update call by call. Each handler is
  proved to leave the store, and to answer the status, exactly as its
  transition says.

An update `.update(p).eq(column, v)` writes `p` over every row whose column is
non-null and equals `v`, and leaves all other rows as they were. A lookup
`.single()` finds a row only when exactly one row matches.

Several inputs are parameters of the model:

- the outcome of the Stripe signature check;
- the result of `stripe.subscriptions.retrieve`;
- the clock;
- `Math.random`'s draws;
- the id the store assigns to a new squad;
- the results of `createUser` and `sessions.create`;
- whether each store write reports an error.

A write that reports an error changes nothing.

Two consequences of the code are worth stating.

- **Squad checkout is not idempotent.** The code inserts a new squad on every
  delivery of a squad `checkout.session.completed`. After two deliveries, two
  squads carry the subscription id, so `.single()` finds neither of them
  (`Replay.SquadCheckoutReplayDuplicates`). A later
  `customer.subscription.deleted` then reaches neither squad, and both stay
  active (`Replay.DuplicatedSquadOutlivesDeletion`).
- **Other redeliveries are harmless under stated conditions.** Delivering a
  subscription event, an `invoice.paid` or an individual checkout a second
  time changes nothing, provided both deliveries run at the same instant,
  neither meets a store error, and both see the same re-fetched subscription
  (the `Replay.*IsIdempotent` lemmas).

## Model

| member | source | states |
|---|---|---|
| Catalog.GetPlanType | supabase/functions/stripe-webhook-prod/index.ts:19-32 | The four squad flat prices map to pilot_annual, small_squad_annual, large_squad_annual and high_volume_annual. Any other price maps to individual_monthly. The result is a squad plan type iff the price is a squad flat price. |
| Catalog.GetIncludedCharts | supabase/functions/stripe-webhook-prod/index.ts:19-40 | The four squad flat prices grant 500, 2000, 5000 and 10000 charts. Any other price grants 0. The allowance is positive iff the price is a squad flat price. |
| SquadCodes.GenerateSquadCode | supabase/functions/stripe-webhook-prod/index.ts:43-50 | The loop builds "SQ-" plus one character per draw, each chosen as floor(draw * 36) from A-Z0-9. The result is a squad code: length 9, prefix "SQ-", six characters from A-Z0-9. |
| SquadCodes.CodeForIsSquadCode | supabase/functions/stripe-webhook-prod/index.ts:43-50 | Every sequence of six draws in [0, 1) yields a string of length 9 that is a squad code. |
| SquadCodes.EverySquadCodeIsGenerated | supabase/functions/stripe-webhook-prod/index.ts:43-50 | Conversely, every squad code is produced by some sequence of draws, so the generator reaches the whole code space. |
| LineItems.ClassifyLineItems | supabase/functions/stripe-webhook-prod/index.ts:138-151 | The loop over the subscription's items computes the flat price id and the metered item id that the left fold `Classify` defines. |
| LineItems.LastSquadPriceWins | supabase/functions/stripe-webhook-prod/index.ts:140-142 | The flat price is the last squad flat price among the items, whatever precedes or follows it. |
| LineItems.LastMeteredItemRecorded | supabase/functions/stripe-webhook-prod/index.ts:143-145 | The metered item id is that of the last metered item that is not a squad price. |
| LineItems.NoMeteredItem | supabase/functions/stripe-webhook-prod/index.ts:143-145 | Without a metered non-squad item, no metered item id is recorded. |
| LineItems.FirstOtherPriceIsFlat | supabase/functions/stripe-webhook-prod/index.ts:146-149 | When there is no squad price and every price id is non-empty, the flat price is the first non-metered price, and there is none when there are no non-metered items. (An empty price id is falsy, so the `!flatPriceId` test would let a later price replace it.) |
| LineItems.IsSquadIffSquadPriceListed | supabase/functions/stripe-webhook-prod/index.ts:138-165 | The subscription is a squad subscription iff some item carries a squad flat price. |
| Entitlements.PatchSquads | supabase/functions/stripe-webhook-prod/index.ts:536-542 | An update of squads filtered by stripe_subscription_id applies the patch to exactly the squads carrying that id, leaves every other squad as it was, and adds or removes no squad. |
| Entitlements.PatchUsers | supabase/functions/stripe-webhook-prod/index.ts:564-571 | An update filtered by a column changes exactly the rows whose column matches, and it adds or removes no row. |
| Entitlements.SquadLookup | supabase/functions/stripe-webhook-prod/index.ts:272-279 | The squad is found iff exactly one squad carries the subscription id, and it is that squad. |
| Entitlements.LookupIsOnlyMatch | supabase/functions/stripe-webhook-prod/index.ts:272-279 | A found squad exists, carries the subscription id, and no other squad does. |
| Entitlements.UpsertUser | supabase/functions/accept-squad-invite/index.ts:98-109 | An upsert on user_id writes the row for that user, creating it if absent, and leaves every other user's row alone. |
| Entitlements.MarkAccepted | supabase/functions/accept-squad-invite/index.ts:125-132 | The invite with that id becomes accepted, with its time and user. No other invite changes. |
| Reconcile.OnCheckoutCompleted | supabase/functions/stripe-webhook-prod/index.ts:97-250 | A missing client_reference_id gives 400 with no writes. The paid period is the re-fetched subscription's start and end when the session has a subscription and the re-fetch succeeded; otherwise it starts now with no end. The squad path inserts exactly one new squad row: a valid squad code, the name "My Squad", the user as admin, the session's customer, subscription and email, status active, the catalog's plan type and allowance, that period, charts_used 0 and the metered item id. No other squad changes. It then updates the admin row, which equals the old row with only status active, squad_id, customer, subscription, email, period and updated_at replaced. An insert error, or a taken id, gives 500 with no writes; an admin-update error gives 500 after the insert. The individual path replaces only status, email, customer, subscription, period, allowed_squads ["ALL"] and updated_at on the user's row, and leaves squads alone. |
| Reconcile.BranchOf | supabase/functions/stripe-webhook-prod/index.ts:283-392 | Branch precedence: canceled iff the status is canceled. Otherwise pending iff cancel_at_period_end or cancel_at is set. Otherwise reactivation iff the status is active. |
| Reconcile.OnSubscriptionUpdated | supabase/functions/stripe-webhook-prod/index.ts:253-439 | Only the found squad and its members, or only rows with the subscription id, can change. Each changed row equals the old row with only the written columns replaced. Immediate cancel: the squad gets status canceled, canceled_at stamped and updated_at, and every member is canceled; or each individual row gets exactly those three columns. Pending cancel: no status changes anywhere; the squad, or each individual row, gets only canceled_at, the period end from cancel_at (kept when cancel_at is unset) and updated_at. Reactivation: the squad gets only status active, canceled_at cleared and updated_at, and members become active; an individual row gets only canceled_at cleared and updated_at. 500 exactly when the first write fails in a cancel branch (immediate or pending), with no writes. Invites are untouched. |
| Reconcile.FirstTruthy | supabase/functions/stripe-webhook-prod/index.ts:459-474 | The result is the first truthy candidate. There is none iff no candidate is truthy. |
| Reconcile.ResolvePeriod | supabase/functions/stripe-webhook-prod/index.ts:457-479 | The start is the first truthy of top level, first item and start_date, else now. The end is the first truthy of top level and first item, else absent. |
| Reconcile.OnSubscriptionCreated | supabase/functions/stripe-webhook-prod/index.ts:442-508 | Each row with the customer id equals its old row with only status (the event's), subscription id, canceled_at cleared, the resolved period start, updated_at and, only when one was resolved, the period end replaced; customer id, email, squad membership, squad names and allowed_squads stay. Other rows and squads are unchanged. A write error gives 500 with no writes. |
| Reconcile.OnSubscriptionDeleted | supabase/functions/stripe-webhook-prod/index.ts:511-580 | The found squad is canceled and so is every member. Otherwise the rows with the subscription id have their status canceled and nothing else changes (canceled_at is left alone). A first-write error gives 500 with no writes. |
| Reconcile.OnInvoicePaid | supabase/functions/stripe-webhook-prod/index.ts:583-676 | With no subscription on the invoice, or a failed retrieve, there are no writes and the answer is 200. Otherwise the squad, or each individual row with the subscription id, equals its old row with only status active, the retrieved period start and end, canceled_at cleared and updated_at replaced; charts_used, plan and membership columns stay. Squad members become active. A first-write error gives 500 with no writes. |
| Reconcile.Webhook | supabase/functions/stripe-webhook-prod/index.ts:68-686 | A non-POST gives 405. A checked signature that is invalid gives 400. An unparsable unchecked body gives 500. Nothing is written unless the event is admitted. An admitted checkout.session.completed, customer.subscription.updated, customer.subscription.created, customer.subscription.deleted or invoice.paid gets exactly the outcome of its own handler; an unrecognised event type gives 200 with no writes. Invites are never written. |
| Webhook.HandleCheckoutCompleted | supabase/functions/stripe-webhook-prod/index.ts:97-250 | Run against the store, the handler's writes and status are exactly `Reconcile.OnCheckoutCompleted`. |
| Webhook.HandleSubscriptionUpdated | supabase/functions/stripe-webhook-prod/index.ts:253-439 | Run against the store, the handler's writes and status are exactly `Reconcile.OnSubscriptionUpdated`. |
| Webhook.HandleSubscriptionCreated | supabase/functions/stripe-webhook-prod/index.ts:442-508 | Run against the store, the handler's writes and status are exactly `Reconcile.OnSubscriptionCreated`. |
| Webhook.HandleSubscriptionDeleted | supabase/functions/stripe-webhook-prod/index.ts:511-580 | Run against the store, the handler's writes and status are exactly `Reconcile.OnSubscriptionDeleted`. |
| Webhook.HandleInvoicePaid | supabase/functions/stripe-webhook-prod/index.ts:583-676 | Run against the store, the handler's writes and status are exactly `Reconcile.OnInvoicePaid`. |
| Webhook.Serve | supabase/functions/stripe-webhook-prod/index.ts:68-686 | The endpoint run against the store is exactly `Reconcile.Webhook`. |
| Webhook.Cascade | supabase/functions/stripe-webhook-prod/index.ts:307-318 | The member cascade sets every member's status, or writes nothing when it errors. |
| Database.Store.FindSquadBySubscription | supabase/functions/stripe-webhook-prod/index.ts:272-277 | The lookup returns the only squad carrying the subscription id, or nothing. |
| Database.Store.FindSquadById | supabase/functions/accept-squad-invite/index.ts:55-59 | The query keeps the rows whose key equals the id and finds one only when exactly one remains. Because id is the key, a squad is found iff one is stored under the id, and it is that row. |
| Database.Store.HasMembership | supabase/functions/accept-squad-invite/index.ts:79-84 | The query keeps the rows matching both the user_id and the squad_id filters and finds one only when exactly one remains. Because user_id is the key, this holds iff the user's own row exists and names this squad. |
| Database.Store.UpdateUsers | supabase/functions/stripe-webhook-prod/index.ts:564-571 | Only user rows change, by the filtered update, unless the write errors. |
| Database.Store.UpdateSquads | supabase/functions/stripe-webhook-prod/index.ts:536-542 | Only squad rows change, by the filtered update, unless the write errors. |
| Database.Store.InsertSquad | supabase/functions/stripe-webhook-prod/index.ts:178-196 | The insert errors iff the store reports an error or the id is taken. Otherwise exactly that squad is added. |
| Database.Store.UpsertUser | supabase/functions/accept-squad-invite/index.ts:98-109 | Only the user table changes, by the upsert, unless the write errors. |
| Database.Store.MarkInviteAccepted | supabase/functions/accept-squad-invite/index.ts:125-132 | Only the invite table changes, unless the write errors. |
| InviteAcceptance.AcceptInvite | supabase/functions/accept-squad-invite/index.ts:15-158 | OPTIONS gives 204 and any other non-POST gives 405. Missing ids give 400, an unknown squad 404, an inactive squad 403, all with no writes. An existing member gets 200 "already a member" with no writes. An upsert error gives 500 and the invite is untouched. Otherwise only the user's row changes: it equals the existing row, or a new row of nulls and empty lists, with exactly squad_id, status active, the squad's period end, squad_names [name] and allowed_squads [squad_id] written over it; every other column of an existing row stays. The invite is marked accepted unless that write fails; the reply is 200 with the squad name either way. Squads are never written. |
| InviteAcceptance.ReacceptanceIsNoOp | supabase/functions/accept-squad-invite/index.ts:78-95 | Accepting again after a join changes nothing and answers "already a member". |
| InviteAcceptance.AcceptSquadInvite | supabase/functions/accept-squad-invite/index.ts:15-158 | Run against the store, the handler's writes and response are exactly `InviteAcceptance.AcceptInvite`. |
| CheckoutRoute.PriceConfig | app/api/create-checkout-session/route.ts:31-60 | The five plan types are the keys. individual_monthly is the individual plan; the other four are squad flat+overage plans. |
| CheckoutRoute.IndexAsWritten | app/api/create-checkout-session/route.ts:74 | The property read yields a value for the five plan types and for every name inherited from Object.prototype. It yields the configured plan for a plan type and the inherited member for an inherited name. |
| CheckoutRoute.PrototypeNamesAreNotPlans | app/api/create-checkout-session/route.ts:31-60 | No name inherited from Object.prototype is one of PRICE_CONFIG's own keys. |
| CheckoutRoute.PrototypeNamePassesGuard | app/api/create-checkout-session/route.ts:74-80 | "constructor" passes the guard and produces a line item with no price, while the own-key lookup rejects it. |
| CheckoutRoute.LookupPlan | app/api/create-checkout-session/route.ts:73-80 | A plan is found iff the plan type is one of the five own keys. It agrees with the property read exactly on those keys. |
| CheckoutRoute.LineItemsFor | app/api/create-checkout-session/route.ts:126-151 | A squad plan gives two items in order: the flat price with quantity 1, then the overage price with no quantity. The individual plan gives one item with quantity 1. An inherited member is not a squad config, so it gives one item with quantity 1 and no price. Every item has a price iff the value is a configured plan. |
| CheckoutRoute.IncludedChartsFor | app/api/create-checkout-session/route.ts:128-142 | The allowance is the squad plan's configured count, and stays 0 for the individual plan and for an inherited member. |
| CheckoutRoute.NatToString | app/api/create-checkout-session/route.ts:165 | toString of a count is a non-empty string of decimal digits with no leading zero. |
| CheckoutRoute.NatToStringRoundTrip | app/api/create-checkout-session/route.ts:165 | The included_charts string reads back as the count it was made from. |
| CheckoutRoute.SessionParamsFor | app/api/create-checkout-session/route.ts:153-170 | The session has client_reference_id and supabase_user_id set to the user, the email, a card subscription with a 7-day trial, plan_type set to the plan type, included_charts reading back as the allowance, and the line items for the looked-up value. |
| CheckoutRoute.CreateCheckoutSession | app/api/create-checkout-session/route.ts:62-180 | The route as written. A bad body gives 500. Missing fields give 400. The plan guard answers 400 "Invalid plan type" iff the name is neither a plan type nor inherited from Object.prototype. After the guard, an already-active account gives 400 with no session. A failed account creation gives 500 with the error's message or the default. Otherwise the session is sent for the existing or new account, and the answer is 200 with its url and id, or 500 if Stripe throws. For an inherited name the session sent has one priceless line item and included_charts "0". The directory only gains the new account. |
| CheckoutRoute.CreateCheckoutSessionIntended | app/api/create-checkout-session/route.ts:73-80 | The route with the guard it is meant to have: any name other than the five plan types gives 400 "Invalid plan type" with no account created; otherwise it behaves as the route as written. Every line item sent carries a price. |
| CheckoutRoute.RoutesDifferOnlyOnPrototypeNames | app/api/create-checkout-session/route.ts:73-80 | The route as written and the intended route give the same result on every request whose plan type is not an inherited name. |
| CheckoutRoute.PrototypeNameCreatesAccount | app/api/create-checkout-session/route.ts:74-123 | A new sign-up for "constructor": as written, the account is created and a session with one priceless line item is sent; the intended route answers 400 and creates nothing. |
| CheckoutRoute.CatalogsAgree | app/api/create-checkout-session/route.ts:31-60 | When the environment holds the webhook's flat prices, each plan's flat price maps in the webhook catalog to the same plan type and allowance. It is a squad price iff the plan is a squad plan. |
| CheckoutRoute.WebhookPlansAreOffered | supabase/functions/stripe-webhook-prod/index.ts:19-24 | Every squad price the webhook knows is the flat price of a checkout plan with the same allowance. |
| Replay.PatchUsersTwice | supabase/functions/stripe-webhook-prod/index.ts:564-571 | An update that does not write its filter column is idempotent. |
| Replay.PatchSquadsTwice | supabase/functions/stripe-webhook-prod/index.ts:536-542 | A squad update by subscription id is idempotent. |
| Replay.UpdatedIsIdempotent | supabase/functions/stripe-webhook-prod/index.ts:253-439 | Delivering customer.subscription.updated twice at the same instant, with no store error in either delivery, leaves the store and the status as one delivery does. |
| Replay.CreatedIsIdempotent | supabase/functions/stripe-webhook-prod/index.ts:442-508 | Delivering customer.subscription.created twice at the same instant, with no store error in either delivery, leaves the store and the status as one delivery does. |
| Replay.DeletedIsIdempotent | supabase/functions/stripe-webhook-prod/index.ts:511-580 | Delivering customer.subscription.deleted twice at the same instant, with no store error in either delivery, leaves the store and the status as one delivery does. |
| Replay.InvoicePaidIsIdempotent | supabase/functions/stripe-webhook-prod/index.ts:583-676 | Delivering invoice.paid twice at the same instant, with the same re-fetched subscription and no store error in either delivery, leaves the store and the status as one delivery does. |
| Replay.IndividualCheckoutIsIdempotent | supabase/functions/stripe-webhook-prod/index.ts:226-248 | Delivering an individual checkout twice at the same instant, with the same re-fetched subscription and no store error in either delivery, leaves the store and the status as one delivery does. |
| Replay.SquadCheckoutReplayDuplicates | supabase/functions/stripe-webhook-prod/index.ts:168-196 | A squad checkout delivered twice inserts two squads with the same subscription id, after which the lookup by subscription id finds none. |
| Replay.TwoCarriersDefeatLookup | supabase/functions/stripe-webhook-prod/index.ts:272-279 | With two squads carrying a subscription id, `.single()` finds none. |
| Replay.DuplicatedSquadOutlivesDeletion | supabase/functions/stripe-webhook-prod/index.ts:524-578 | With two such squads, subscription deletion leaves every squad unchanged. Only rows that carry the subscription id themselves can change. |

## Left out

- **Signature cryptography.** `constructEventAsync` is an oracle verdict. When the signature is checked, a body that cannot be parsed counts as failing verification and gets 400. When it is not checked (no secret or no signature header), `JSON.parse` throws to the outer catch and the answer is 500.
- **JSON bodies.** A field that is missing, null or not a string is absent. `undefined` and `null` are not told apart.
- **Time.** Timestamps are integers. The ISO-string conversion and its seconds-to-milliseconds step are not modelled. Each invocation uses one instant, where the source reads the clock at each write.
- **Error texts.** Messages that embed the store's or Stripe's error text keep only their fixed part.
- **Failed reads.** The source ignores the error of several reads, so such a read just finds nothing; the model reads the tables as they are and does not model the error. These reads are the webhook's `.single()` squad lookups; the existing-membership `.single()` read in accept-squad-invite, where an error leads to the upsert being run again for a user who is already a member; and the existing-subscription read in the checkout route, where an error lets an active user through as if not active. A read error on an existing squad in invite acceptance, which the source answers with 404, is not modelled either.
- **Exceptions.** Exceptions other than a failed JSON parse, a failed retrieve and a failed `sessions.create` are not modelled. This includes network failures of the store client, which the outer catch turns into 500.
- **Column defaults.** A new squad's created_at, updated_at and canceled_at defaults are abstracted to absent, and so are the columns of a user_subscriptions row created by the invite upsert that the upsert does not name. charts_used metering and reset are left out because the source implements neither.
- **Logging, CORS headers, environment loading.** None of these affects the store or the status.
- **Concurrency.** Invocations are taken one at a time, and redelivery is modelled as sequential replay.
- Catalog.GetPlanType: the lookup is over the catalog's own keys. For a name inherited from Object.prototype the source returns undefined rather than the fallback. The webhook never reaches that case, because it calls the function only for the four squad prices.
- Catalog.GetIncludedCharts: the same applies. The webhook calls it only for the four squad prices.
- CheckoutRoute.CreateCheckoutSession: the auth directory is searched as a whole. `listUsers` returns only its first page, so an account beyond that page is not found by the source; this is not modelled.
- CheckoutRoute.CreateCheckoutSession: the side effects of `createUser` are reduced to the directory gaining the account. The user metadata and email confirmation are not modelled.
- InviteAcceptance.AcceptInvite: the 500 reply to a failed upsert keeps only the fixed prefix of its message.

## Findings

| source | as written | input that shows it | evidently intended | confidence | as-written member | corrected member |
|---|---|---|---|---|---|---|
| app/api/create-checkout-session/route.ts:74-80 | `PRICE_CONFIG[planType]` is an ordinary property read, so names inherited from Object.prototype are truthy and pass the "Invalid plan type" guard. The route then creates the account and builds a line item with no price. | planType = "constructor" (also "toString", "__proto__", …) with a new email (`CheckoutRoute.PrototypeNameCreatesAccount`) | Only the five configured plan types pass; any other gets 400 before an account is created. | high, not executed | CheckoutRoute.CreateCheckoutSession | CheckoutRoute.CreateCheckoutSessionIntended |
