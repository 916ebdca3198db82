/**
 * The create-checkout-session route: validate the sign-up request, look the
 * plan up in PRICE_CONFIG, refuse a user who already has an active
 * subscription, create the account if there is none, and build the Stripe
 * Checkout Session parameters the webhook later reads back. The price ids come
 * from the environment; listUsers, createUser and sessions.create are oracles.
 */
module CheckoutRoute {
  import opened Common
  import Catalog
  import opened Entitlements

  /** PRICE_CONFIG's tagged union. */
  datatype PlanConfig =
    | Individual(priceId: string)
    | SquadFlatOverage(flatPriceId: string, overagePriceId: string, includedCharts: nat)

  /** The NEXT_PUBLIC_STRIPE_PRICE_* environment values. */
  datatype PriceEnv = PriceEnv(
    individualMonthly: string,
    pilotFlat: string, pilotOverage: string,
    smallSquadFlat: string, smallSquadOverage: string,
    largeSquadFlat: string, largeSquadOverage: string,
    highVolumeFlat: string, highVolumeOverage: string)

  /** PRICE_CONFIG's own keys. */
  const PLAN_TYPES: seq<string> :=
    ["individual_monthly", "pilot_annual", "small_squad_annual", "large_squad_annual", "high_volume_annual"]

  /** PRICE_CONFIG. */
  function PriceConfig(env: PriceEnv): (config: map<string, PlanConfig>)
    ensures config.Keys == set p | p in PLAN_TYPES
    ensures config[Catalog.INDIVIDUAL_PLAN] == Individual(env.individualMonthly)
    ensures forall p :: p in config && p != Catalog.INDIVIDUAL_PLAN ==> config[p].SquadFlatOverage?
  {
    map[
      "individual_monthly" := Individual(env.individualMonthly),
      "pilot_annual" := SquadFlatOverage(env.pilotFlat, env.pilotOverage, 500),
      "small_squad_annual" := SquadFlatOverage(env.smallSquadFlat, env.smallSquadOverage, 2000),
      "large_squad_annual" := SquadFlatOverage(env.largeSquadFlat, env.largeSquadOverage, 5000),
      "high_volume_annual" := SquadFlatOverage(env.highVolumeFlat, env.highVolumeOverage, 10000)
    ]
  }

  // ---------------------------------------------------------------------
  // The plan lookup

  /** The property names every object literal inherits from Object.prototype. */
  const PROTOTYPE_NAMES: seq<string> := [
    "constructor", "__proto__", "toString", "toLocaleString", "valueOf", "hasOwnProperty",
    "isPrototypeOf", "propertyIsEnumerable", "__defineGetter__", "__defineSetter__",
    "__lookupGetter__", "__lookupSetter__"]

  /** No inherited name is one of PRICE_CONFIG's own keys. */
  lemma PrototypeNamesAreNotPlans(name: string)
    ensures name in PROTOTYPE_NAMES ==> name !in PLAN_TYPES
  {
    forall i, j | 0 <= i < |PROTOTYPE_NAMES| && 0 <= j < |PLAN_TYPES|
      ensures PROTOTYPE_NAMES[i] != PLAN_TYPES[j]
    {
      assert PROTOTYPE_NAMES[i][0] != PLAN_TYPES[j][0] || |PROTOTYPE_NAMES[i]| != |PLAN_TYPES[j]|;
    }
  }

  /** A value read out of PRICE_CONFIG: one of its plans, or a member inherited from Object.prototype. */
  datatype ConfigValue = OwnPlan(plan: PlanConfig) | Inherited(name: string)

  /**
   * `PRICE_CONFIG[planType]` as written: an ordinary property read, which
   * also finds the inherited members (all of them truthy).
   */
  function IndexAsWritten(env: PriceEnv, planType: string): (v: Option<ConfigValue>)
    ensures v.Some? <==> planType in PLAN_TYPES || planType in PROTOTYPE_NAMES
    ensures planType in PLAN_TYPES ==> v == Some(OwnPlan(PriceConfig(env)[planType]))
    ensures planType in PROTOTYPE_NAMES ==> v == Some(Inherited(planType))
  {
    PrototypeNamesAreNotPlans(planType);
    var config := PriceConfig(env);
    if planType in config then Some(OwnPlan(config[planType]))
    else if planType in PROTOTYPE_NAMES then Some(Inherited(planType))
    else None
  }

  /** The plan lookup the guard is meant to make: a plan only for PRICE_CONFIG's own keys. */
  function LookupPlan(env: PriceEnv, planType: string): (plan: Option<PlanConfig>)
    ensures plan.Some? <==> planType in PLAN_TYPES
    ensures plan.Some? ==> plan.value == PriceConfig(env)[planType]
    ensures plan.Some? <==> (IndexAsWritten(env, planType).Some? && IndexAsWritten(env, planType).value.OwnPlan?)
  {
    var config := PriceConfig(env);
    if planType in config then Some(config[planType]) else None
  }

  /** An entry of the session's line_items; `price` is `None` when the config has no such field. */
  datatype LineItem = LineItem(price: Option<string>, quantity: Option<nat>)

  /**
   * The line items built from the value read out of PRICE_CONFIG. Only a
   * `'squad'` config gets the flat and overage items; anything else, an
   * inherited member included, is read as an individual config.
   */
  function LineItemsFor(v: ConfigValue): (items: seq<LineItem>)
    ensures v.OwnPlan? && v.plan.SquadFlatOverage? ==>
      items == [LineItem(Some(v.plan.flatPriceId), Some(1)), LineItem(Some(v.plan.overagePriceId), None)]
    ensures v.OwnPlan? && v.plan.Individual? ==> items == [LineItem(Some(v.plan.priceId), Some(1))]
    ensures v.Inherited? ==> items == [LineItem(None, Some(1))]
    ensures (forall i :: 0 <= i < |items| ==> items[i].price.Some?) <==> v.OwnPlan?
  {
    match v
    case OwnPlan(SquadFlatOverage(flat, overage, _)) => [LineItem(Some(flat), Some(1)), LineItem(Some(overage), None)]
    case OwnPlan(Individual(price)) => [LineItem(Some(price), Some(1))]
    case Inherited(_) =>
      var items := [LineItem(None, Some(1))];
      assert !items[0].price.Some?;
      items
  }

  /**
   * The guard `if (!planConfig)` lets "constructor" through: the route goes on to
   * create the account and then builds a line item with no price, where the
   * guard was meant to answer "Invalid plan type".
   */
  lemma PrototypeNamePassesGuard(env: PriceEnv)
    ensures IndexAsWritten(env, "constructor").Some?
    ensures LineItemsFor(IndexAsWritten(env, "constructor").value) == [LineItem(None, Some(1))]
    ensures LookupPlan(env, "constructor").None?
  {
    assert "constructor" == PROTOTYPE_NAMES[0];
    assert "constructor" !in PLAN_TYPES by {
      assert forall i :: 0 <= i < |PLAN_TYPES| ==> |PLAN_TYPES[i]| != |"constructor"|;
    }
  }

  // ---------------------------------------------------------------------
  // Line items and session parameters

  /** includedCharts: the squad plan's allowance, and the initial 0 for anything else. */
  function IncludedChartsFor(v: ConfigValue): (charts: nat)
    ensures v.OwnPlan? && v.plan.SquadFlatOverage? ==> charts == v.plan.includedCharts
    ensures !(v.OwnPlan? && v.plan.SquadFlatOverage?) ==> charts == 0
  {
    if v.OwnPlan? && v.plan.SquadFlatOverage? then v.plan.includedCharts else 0
  }

  function DigitChar(d: nat): (c: char)
    requires d < 10
    ensures '0' <= c <= '9' && (c as int) - ('0' as int) == d
  {
    "0123456789"[d]
  }

  /** `Number.prototype.toString()` on a natural number: its decimal digits. */
  function NatToString(n: nat): (s: string)
    ensures |s| >= 1
    ensures forall i :: 0 <= i < |s| ==> '0' <= s[i] <= '9'
    ensures |s| > 1 ==> s[0] != '0'
    decreases n
  {
    if n < 10 then [DigitChar(n)] else NatToString(n / 10) + [DigitChar(n % 10)]
  }

  /** The value of a string of decimal digits. */
  function DecimalValue(s: string): nat
    requires forall i :: 0 <= i < |s| ==> '0' <= s[i] <= '9'
  {
    if |s| == 0 then 0 else DecimalValue(s[..|s| - 1]) * 10 + ((s[|s| - 1] as int) - ('0' as int))
  }

  /** The metadata's included_charts string reads back as the number it was made from. */
  lemma {:induction false} NatToStringRoundTrip(n: nat)
    ensures DecimalValue(NatToString(n)) == n
  {
    if n >= 10 {
      NatToStringRoundTrip(n / 10);
      var s := NatToString(n);
      assert s[..|s| - 1] == NatToString(n / 10);
    }
  }

  datatype Metadata = Metadata(supabaseUserId: UserId, planType: string, includedCharts: string)

  /** The arguments of stripe.checkout.sessions.create. */
  datatype SessionParams = SessionParams(
    paymentMethodTypes: seq<string>,
    mode: string,
    customerEmail: string,
    clientReferenceId: UserId,
    lineItems: seq<LineItem>,
    trialPeriodDays: nat,
    metadata: Metadata,
    successUrl: string,
    cancelUrl: string)

  const TRIAL_PERIOD_DAYS := 7

  /** A template literal renders a missing origin header as "null". */
  function OriginText(origin: Option<string>): string
  {
    if origin.Some? then origin.value else "null"
  }

  function SessionParamsFor(email: string, userId: UserId, planType: string, v: ConfigValue, origin: Option<string>): (p: SessionParams)
    ensures p.clientReferenceId == userId && p.metadata.supabaseUserId == userId
    ensures p.customerEmail == email
    ensures p.trialPeriodDays == 7 && p.mode == "subscription" && p.paymentMethodTypes == ["card"]
    ensures p.metadata.planType == planType
    ensures forall i :: 0 <= i < |p.metadata.includedCharts| ==> '0' <= p.metadata.includedCharts[i] <= '9'
    ensures DecimalValue(p.metadata.includedCharts) == IncludedChartsFor(v)
    ensures p.lineItems == LineItemsFor(v)
  {
    NatToStringRoundTrip(IncludedChartsFor(v));
    SessionParams(
      ["card"], "subscription", email, userId, LineItemsFor(v), TRIAL_PERIOD_DAYS,
      Metadata(userId, planType, NatToString(IncludedChartsFor(v))),
      OriginText(origin) + "/checkout/success?session_id={CHECKOUT_SESSION_ID}",
      OriginText(origin) + "/#pricing")
  }

  // ---------------------------------------------------------------------
  // The route

  /** The JSON body's fields; a field that is missing or not a string is `None`. */
  datatype CheckoutBody = CheckoutBody(email: Option<string>, password: Option<string>, planType: Option<string>)

  /** The request; `body` is `None` when `request.json()` throws. */
  datatype CheckoutRequest = CheckoutRequest(body: Option<CheckoutBody>, origin: Option<string>)

  /** The auth directory: account id by email. */
  type Accounts = map<string, UserId>

  /** createUser's answer: the new account's id, or the error (whose message may be absent). */
  datatype CreateUserResult = Created(id: UserId) | CreateFailed(message: Option<string>)

  /** sessions.create's answer: the session, or `None` when the call throws. */
  datatype CreatedSession = CreatedSession(url: Option<string>, id: string)

  datatype RouteOracles = RouteOracles(createUser: CreateUserResult, session: Option<CreatedSession>)

  datatype RouteReply = SessionCreated(url: Option<string>, sessionId: string) | Failure(error: string)

  /** The answer, the auth directory afterwards, and the parameters sent to Stripe, if the route got that far. */
  datatype RouteResult = RouteResult(accounts: Accounts, status: nat, reply: RouteReply, sent: Option<SessionParams>)

  const FIELDS_REQUIRED := "Email, password, and planType are required"
  const INVALID_PLAN := "Invalid plan type"
  const ALREADY_ACTIVE := "You already have an active subscription. Please log in to manage it."
  const ACCOUNT_FAILED := "Failed to create account"
  const SESSION_FAILED := "Failed to create checkout session"

  /** All three fields are present and non-empty. */
  predicate Complete(body: CheckoutBody)
  {
    TruthyStr(body.email) && TruthyStr(body.password) && TruthyStr(body.planType)
  }

  /** The email belongs to an account whose user_subscriptions row is active. */
  predicate AlreadyActive(accounts: Accounts, users: map<UserId, UserRow>, email: string)
  {
    email in accounts && accounts[email] in users && users[accounts[email]].subscriptionStatus == ACTIVE
  }

  /**
   * What follows a passed plan guard, for the value `v` the guard let through:
   * the active-subscription refusal, the account, and the session.
   */
  predicate AfterGuard(accounts: Accounts, users: map<UserId, UserRow>, email: string, planType: string,
                       v: ConfigValue, origin: Option<string>, o: RouteOracles, r: RouteResult)
  {
    && (AlreadyActive(accounts, users, email) ==> r == RouteResult(accounts, 400, Failure(ALREADY_ACTIVE), None))
    && (email !in accounts && o.createUser.CreateFailed? ==>
          r == RouteResult(accounts, 500, Failure(OrStr(o.createUser.message, Some(ACCOUNT_FAILED)).value), None))
    && (!AlreadyActive(accounts, users, email) && (email in accounts || o.createUser.Created?) ==>
          var userId := if email in accounts then accounts[email] else o.createUser.id;
          && r.accounts == accounts[email := userId]
          && r.sent == Some(SessionParamsFor(email, userId, planType, v, origin))
          && (o.session.Some? ==> r.status == 200 && r.reply == SessionCreated(o.session.value.url, o.session.value.id))
          && (o.session.None? ==> r.status == 500 && r.reply == Failure(SESSION_FAILED)))
  }

  /** The route from the account check on, once the plan guard has passed with `v`. */
  function Proceed(accounts: Accounts, users: map<UserId, UserRow>, email: string, planType: string,
                   v: ConfigValue, origin: Option<string>, o: RouteOracles): (r: RouteResult)
    ensures AfterGuard(accounts, users, email, planType, v, origin, o, r)
    ensures r.accounts == accounts || (o.createUser.Created? && email !in accounts && r.accounts == accounts[email := o.createUser.id])
    ensures r.sent.Some? ==> r.sent.value.clientReferenceId in r.accounts.Values
  {
    if AlreadyActive(accounts, users, email) then RouteResult(accounts, 400, Failure(ALREADY_ACTIVE), None)
    else if email !in accounts && o.createUser.CreateFailed? then
      RouteResult(accounts, 500, Failure(OrStr(o.createUser.message, Some(ACCOUNT_FAILED)).value), None)
    else
      var userId := if email in accounts then accounts[email] else o.createUser.id;
      var after := accounts[email := userId];
      assert after[email] == userId;
      var params := SessionParamsFor(email, userId, planType, v, origin);
      match o.session
      case None => RouteResult(after, 500, Failure(SESSION_FAILED), Some(params))
      case Some(session) => RouteResult(after, 200, SessionCreated(session.url, session.id), Some(params))
  }

  /** The route as written: the plan guard is the property read `PRICE_CONFIG[planType]`. */
  function CreateCheckoutSession(env: PriceEnv, accounts: Accounts, users: map<UserId, UserRow>,
                                 req: CheckoutRequest, o: RouteOracles): (r: RouteResult)
    // The directory only ever gains the new account.
    ensures r.accounts == accounts
         || (o.createUser.Created? && exists e :: e !in accounts && r.accounts == accounts[e := o.createUser.id])
    ensures r.sent.Some? ==> r.sent.value.clientReferenceId in r.accounts.Values
    ensures req.body.None? ==> r == RouteResult(accounts, 500, Failure(SESSION_FAILED), None)
    ensures req.body.Some? && !Complete(req.body.value) ==> r == RouteResult(accounts, 400, Failure(FIELDS_REQUIRED), None)
    ensures req.body.Some? && Complete(req.body.value) ==>
      var planType := req.body.value.planType.value;
      && (IndexAsWritten(env, planType).None? <==> planType !in PLAN_TYPES && planType !in PROTOTYPE_NAMES)
      && (IndexAsWritten(env, planType).None? ==> r == RouteResult(accounts, 400, Failure(INVALID_PLAN), None))
      && (IndexAsWritten(env, planType).Some? ==>
            AfterGuard(accounts, users, req.body.value.email.value, planType, IndexAsWritten(env, planType).value, req.origin, o, r))
    // An inherited name reaches Stripe with a priceless line item and no chart allowance.
    ensures req.body.Some? && Complete(req.body.value) && req.body.value.planType.value in PROTOTYPE_NAMES
            && r.sent.Some? ==>
      r.sent.value.lineItems == [LineItem(None, Some(1))] && r.sent.value.metadata.includedCharts == "0"
  {
    if req.body.None? then RouteResult(accounts, 500, Failure(SESSION_FAILED), None)
    else if !Complete(req.body.value) then RouteResult(accounts, 400, Failure(FIELDS_REQUIRED), None)
    else
      var planType := req.body.value.planType.value;
      match IndexAsWritten(env, planType)
      case None => RouteResult(accounts, 400, Failure(INVALID_PLAN), None)
      case Some(v) =>
        assert planType in PROTOTYPE_NAMES ==> v.Inherited?;
        Proceed(accounts, users, req.body.value.email.value, planType, v, req.origin, o)
  }

  /** The route with the plan guard it is meant to have: only PRICE_CONFIG's own keys pass. */
  function CreateCheckoutSessionIntended(env: PriceEnv, accounts: Accounts, users: map<UserId, UserRow>,
                                         req: CheckoutRequest, o: RouteOracles): (r: RouteResult)
    ensures r.accounts == accounts
         || (o.createUser.Created? && exists e :: e !in accounts && r.accounts == accounts[e := o.createUser.id])
    ensures r.sent.Some? ==> r.sent.value.clientReferenceId in r.accounts.Values
    ensures req.body.None? ==> r == RouteResult(accounts, 500, Failure(SESSION_FAILED), None)
    ensures req.body.Some? && !Complete(req.body.value) ==> r == RouteResult(accounts, 400, Failure(FIELDS_REQUIRED), None)
    ensures req.body.Some? && Complete(req.body.value) ==>
      var planType := req.body.value.planType.value;
      && (planType !in PLAN_TYPES ==> r == RouteResult(accounts, 400, Failure(INVALID_PLAN), None))
      && (planType in PLAN_TYPES ==>
            AfterGuard(accounts, users, req.body.value.email.value, planType, OwnPlan(PriceConfig(env)[planType]), req.origin, o, r))
    // Every line item sent to Stripe carries a price.
    ensures r.sent.Some? ==> forall i :: 0 <= i < |r.sent.value.lineItems| ==> r.sent.value.lineItems[i].price.Some?
  {
    if req.body.None? then RouteResult(accounts, 500, Failure(SESSION_FAILED), None)
    else if !Complete(req.body.value) then RouteResult(accounts, 400, Failure(FIELDS_REQUIRED), None)
    else
      var planType := req.body.value.planType.value;
      match LookupPlan(env, planType)
      case None => RouteResult(accounts, 400, Failure(INVALID_PLAN), None)
      case Some(plan) => Proceed(accounts, users, req.body.value.email.value, planType, OwnPlan(plan), req.origin, o)
  }

  /** The two routes differ exactly on the inherited names, and agree everywhere else. */
  lemma {:induction false} RoutesDifferOnlyOnPrototypeNames(env: PriceEnv, accounts: Accounts, users: map<UserId, UserRow>,
                                                           req: CheckoutRequest, o: RouteOracles)
    requires !(req.body.Some? && Complete(req.body.value) && req.body.value.planType.value in PROTOTYPE_NAMES)
    ensures CreateCheckoutSession(env, accounts, users, req, o) == CreateCheckoutSessionIntended(env, accounts, users, req, o)
  {
    if req.body.Some? && Complete(req.body.value) {
      var planType := req.body.value.planType.value;
      if planType in PLAN_TYPES {
        assert IndexAsWritten(env, planType) == Some(OwnPlan(LookupPlan(env, planType).value));
      } else {
        assert IndexAsWritten(env, planType).None?;
      }
    }
  }

  /**
   * A new sign-up for "constructor": as written, the account is created and
   * Stripe is asked for a session whose only line item has no price; the
   * intended route answers "Invalid plan type" and creates nothing.
   */
  lemma PrototypeNameCreatesAccount(env: PriceEnv, accounts: Accounts, users: map<UserId, UserRow>,
                                    req: CheckoutRequest, o: RouteOracles)
    requires req.body.Some? && Complete(req.body.value) && req.body.value.planType.value == "constructor"
    requires req.body.value.email.value !in accounts && o.createUser.Created?
    ensures var r := CreateCheckoutSession(env, accounts, users, req, o);
      && r.accounts == accounts[req.body.value.email.value := o.createUser.id]
      && r.sent.Some? && r.sent.value.lineItems == [LineItem(None, Some(1))]
    ensures CreateCheckoutSessionIntended(env, accounts, users, req, o) == RouteResult(accounts, 400, Failure(INVALID_PLAN), None)
  {
    PrototypeNamePassesGuard(env);
  }

  // ---------------------------------------------------------------------
  // Agreement with the webhook's catalog

  /** The environment's flat prices are the ones the webhook recognises. */
  predicate EnvMatchesWebhook(env: PriceEnv)
  {
    && env.pilotFlat == Catalog.PILOT_FLAT
    && env.smallSquadFlat == Catalog.SMALL_SQUAD_FLAT
    && env.largeSquadFlat == Catalog.LARGE_SQUAD_FLAT
    && env.highVolumeFlat == Catalog.HIGH_VOLUME_FLAT
    && !Catalog.IsSquadFlatPrice(env.individualMonthly)
  }

  /**
   * A checkout for a plan is read back by the webhook as the same plan with
   * the same chart allowance: the flat price the session carries maps, in the
   * webhook's catalog, to the plan type and included charts the route used.
   */
  lemma {:induction false} CatalogsAgree(env: PriceEnv, planType: string)
    requires EnvMatchesWebhook(env)
    requires planType in PLAN_TYPES
    ensures var plan := PriceConfig(env)[planType];
      var flat := if plan.SquadFlatOverage? then plan.flatPriceId else plan.priceId;
      && Catalog.GetPlanType(flat) == planType
      && Catalog.GetIncludedCharts(flat) == IncludedChartsFor(OwnPlan(plan))
      && (Catalog.IsSquadFlatPrice(flat) <==> plan.SquadFlatOverage?)
  {
    var p := PriceConfig(env);
    if planType == "individual_monthly" {
      assert p[planType] == Individual(env.individualMonthly);
    } else if planType == "pilot_annual" {
      assert p[planType].flatPriceId == Catalog.PILOT_FLAT;
    } else if planType == "small_squad_annual" {
      assert p[planType].flatPriceId == Catalog.SMALL_SQUAD_FLAT;
    } else if planType == "large_squad_annual" {
      assert p[planType].flatPriceId == Catalog.LARGE_SQUAD_FLAT;
    } else {
      assert p[planType].flatPriceId == Catalog.HIGH_VOLUME_FLAT;
    }
  }

  /** Conversely, every squad price the webhook knows is the flat price of a checkout plan with the same allowance. */
  lemma WebhookPlansAreOffered(env: PriceEnv, priceId: string)
    requires EnvMatchesWebhook(env)
    requires Catalog.IsSquadFlatPrice(priceId)
    ensures var planType := Catalog.GetPlanType(priceId);
      && planType in PLAN_TYPES
      && PriceConfig(env)[planType].SquadFlatOverage?
      && PriceConfig(env)[planType].flatPriceId == priceId
      && PriceConfig(env)[planType].includedCharts == Catalog.GetIncludedCharts(priceId)
  {
    var planType := Catalog.GetPlanType(priceId);
    CatalogsAgree(env, planType);
  }
}
