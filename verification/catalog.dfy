/**
 * The webhook's static plan catalog: the four squad flat prices and the plan
 * type and chart allowance each one grants. Any other price is the
 * individual plan with no charts.
 */
module Catalog {

  const PILOT_FLAT := "price_1SsbjtDGtsD3DA0qlyXqkNZa"
  const SMALL_SQUAD_FLAT := "price_1SsborDGtsD3DA0qHJ026v2h"
  const LARGE_SQUAD_FLAT := "price_1SsbpWDGtsD3DA0qp0J1QvEx"
  const HIGH_VOLUME_FLAT := "price_1SsbpuDGtsD3DA0qDRTvC80j"

  /** SQUAD_FLAT_PRICE_IDS: the flat annual prices, not the overage prices. */
  const SQUAD_FLAT_PRICE_IDS: seq<string> :=
    [PILOT_FLAT, SMALL_SQUAD_FLAT, LARGE_SQUAD_FLAT, HIGH_VOLUME_FLAT]

  const INDIVIDUAL_PLAN := "individual_monthly"

  datatype SquadPlan = SquadPlan(planType: string, includedCharts: nat)

  /** SQUAD_PLAN_CONFIG, keyed by flat price id. */
  const SQUAD_PLAN_CONFIG: map<string, SquadPlan> := map[
    PILOT_FLAT := SquadPlan("pilot_annual", 500),
    SMALL_SQUAD_FLAT := SquadPlan("small_squad_annual", 2000),
    LARGE_SQUAD_FLAT := SquadPlan("large_squad_annual", 5000),
    HIGH_VOLUME_FLAT := SquadPlan("high_volume_annual", 10000)
  ]

  /** The squad plan types, in catalog order. */
  const SQUAD_PLAN_TYPES: seq<string> :=
    ["pilot_annual", "small_squad_annual", "large_squad_annual", "high_volume_annual"]

  predicate IsSquadFlatPrice(priceId: string)
  {
    priceId in SQUAD_FLAT_PRICE_IDS
  }

  /** getPlanType */
  function GetPlanType(priceId: string): (planType: string)
    ensures priceId == PILOT_FLAT ==> planType == "pilot_annual"
    ensures priceId == SMALL_SQUAD_FLAT ==> planType == "small_squad_annual"
    ensures priceId == LARGE_SQUAD_FLAT ==> planType == "large_squad_annual"
    ensures priceId == HIGH_VOLUME_FLAT ==> planType == "high_volume_annual"
    ensures !IsSquadFlatPrice(priceId) ==> planType == INDIVIDUAL_PLAN
    ensures IsSquadFlatPrice(priceId) <==> planType in SQUAD_PLAN_TYPES
  {
    if priceId in SQUAD_PLAN_CONFIG then SQUAD_PLAN_CONFIG[priceId].planType else INDIVIDUAL_PLAN
  }

  /** getIncludedCharts */
  function GetIncludedCharts(priceId: string): (charts: nat)
    ensures priceId == PILOT_FLAT ==> charts == 500
    ensures priceId == SMALL_SQUAD_FLAT ==> charts == 2000
    ensures priceId == LARGE_SQUAD_FLAT ==> charts == 5000
    ensures priceId == HIGH_VOLUME_FLAT ==> charts == 10000
    ensures !IsSquadFlatPrice(priceId) ==> charts == 0
    ensures IsSquadFlatPrice(priceId) <==> charts > 0
  {
    if priceId in SQUAD_PLAN_CONFIG then SQUAD_PLAN_CONFIG[priceId].includedCharts else 0
  }
}
