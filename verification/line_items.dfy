/**
 * Classification of a subscription's line items into the flat price and the
 * metered (overage) subscription item, as the checkout handler does it.
 */
module LineItems {
  import opened Common
  import opened Catalog

  /** One entry of subscription.items.data, with the fields the webhook reads. */
  datatype Item = Item(
    id: string,
    priceId: string,
    usageType: Option<string>,          // price.recurring?.usage_type
    currentPeriodStart: Option<int>,
    currentPeriodEnd: Option<int>)

  datatype Classification = Classification(flatPriceId: Option<string>, meteredItemId: Option<string>)

  const UNCLASSIFIED := Classification(None, None)

  predicate IsMetered(item: Item)
  {
    item.usageType == Some("metered")
  }

  /** One iteration of the loop. */
  function Step(c: Classification, item: Item): Classification
  {
    if IsSquadFlatPrice(item.priceId) then c.(flatPriceId := Some(item.priceId))
    else if IsMetered(item) then c.(meteredItemId := Some(item.id))
    else if !TruthyStr(c.flatPriceId) then c.(flatPriceId := Some(item.priceId))
    else c
  }

  /** The loop's result after the given items, in order. */
  function Classify(items: seq<Item>): Classification
  {
    if |items| == 0 then UNCLASSIFIED else Step(Classify(items[..|items| - 1]), items[|items| - 1])
  }

  /** isSquadSubscription: the flat price found is one of the squad flat prices. */
  predicate IsSquad(c: Classification)
  {
    c.flatPriceId.Some? && IsSquadFlatPrice(c.flatPriceId.value)
  }

  /** The for-of loop over subscription.items.data. */
  method ClassifyLineItems(items: seq<Item>) returns (flatPriceId: Option<string>, meteredItemId: Option<string>)
    ensures Classification(flatPriceId, meteredItemId) == Classify(items)
  {
    flatPriceId, meteredItemId := None, None;
    for i := 0 to |items|
      invariant Classification(flatPriceId, meteredItemId) == Classify(items[..i])
    {
      assert items[..i + 1][..i] == items[..i];
      var item := items[i];
      if IsSquadFlatPrice(item.priceId) {
        flatPriceId := Some(item.priceId);
      } else if item.usageType == Some("metered") {
        meteredItemId := Some(item.id);
      } else if !TruthyStr(flatPriceId) {
        flatPriceId := Some(item.priceId);
      }
    }
    assert items[..|items|] == items;
  }

  /** A squad flat price always becomes the flat price: the last one listed wins, whatever precedes it. */
  lemma {:induction false} LastSquadPriceWins(items: seq<Item>, j: nat)
    requires j < |items| && IsSquadFlatPrice(items[j].priceId)
    requires forall m :: j < m < |items| ==> !IsSquadFlatPrice(items[m].priceId)
    ensures Classify(items).flatPriceId == Some(items[j].priceId)
  {
    if j < |items| - 1 {
      var init := items[..|items| - 1];
      assert init[j] == items[j];
      LastSquadPriceWins(init, j);
      assert TruthyStr(Classify(init).flatPriceId);
    }
  }

  /** The metered item recorded is the last metered item that is not a squad flat price. */
  lemma {:induction false} LastMeteredItemRecorded(items: seq<Item>, j: nat)
    requires j < |items| && !IsSquadFlatPrice(items[j].priceId) && IsMetered(items[j])
    requires forall m :: j < m < |items| ==> IsSquadFlatPrice(items[m].priceId) || !IsMetered(items[m])
    ensures Classify(items).meteredItemId == Some(items[j].id)
  {
    if j < |items| - 1 {
      var init := items[..|items| - 1];
      assert init[j] == items[j];
      LastMeteredItemRecorded(init, j);
    }
  }

  /** Without a metered item, no metered item id is recorded. */
  lemma {:induction false} NoMeteredItem(items: seq<Item>)
    requires forall m :: 0 <= m < |items| ==> IsSquadFlatPrice(items[m].priceId) || !IsMetered(items[m])
    ensures Classify(items).meteredItemId == None
  {
    if |items| > 0 {
      NoMeteredItem(items[..|items| - 1]);
    }
  }

  /** An item that is neither a squad flat price nor metered. */
  predicate IsOtherPrice(item: Item)
  {
    !IsSquadFlatPrice(item.priceId) && !IsMetered(item)
  }

  /**
   * Without any squad flat price, the flat price is the first other price
   * (price ids are non-empty strings), or none when there is no other price.
   */
  lemma {:induction false} FirstOtherPriceIsFlat(items: seq<Item>)
    requires forall m :: 0 <= m < |items| ==> !IsSquadFlatPrice(items[m].priceId) && items[m].priceId != ""
    ensures (forall m :: 0 <= m < |items| ==> !IsOtherPrice(items[m])) ==> Classify(items).flatPriceId == None
    ensures forall j :: 0 <= j < |items| && IsOtherPrice(items[j]) && (forall m :: 0 <= m < j ==> !IsOtherPrice(items[m]))
              ==> Classify(items).flatPriceId == Some(items[j].priceId)
  {
    if |items| > 0 {
      var init := items[..|items| - 1];
      FirstOtherPriceIsFlat(init);
      forall j | 0 <= j < |items| && IsOtherPrice(items[j]) && (forall m :: 0 <= m < j ==> !IsOtherPrice(items[m]))
        ensures Classify(items).flatPriceId == Some(items[j].priceId)
      {
        if j < |items| - 1 {
          assert init[j] == items[j];
          assert forall m :: 0 <= m < j ==> init[m] == items[m];
        } else {
          assert forall m :: 0 <= m < |init| ==> !IsOtherPrice(init[m]);
        }
      }
    }
  }

  /** The subscription counts as a squad iff some line item carries a squad flat price. */
  lemma {:induction false} IsSquadIffSquadPriceListed(items: seq<Item>)
    ensures IsSquad(Classify(items)) <==> exists j :: 0 <= j < |items| && IsSquadFlatPrice(items[j].priceId)
  {
    if |items| > 0 {
      var init := items[..|items| - 1];
      IsSquadIffSquadPriceListed(init);
      if IsSquadFlatPrice(items[|items| - 1].priceId) {
      } else if exists j :: 0 <= j < |init| && IsSquadFlatPrice(init[j].priceId) {
        var j :| 0 <= j < |init| && IsSquadFlatPrice(init[j].priceId);
        assert items[j] == init[j];
        assert TruthyStr(Classify(init).flatPriceId);
      } else {
        assert !IsSquad(Classify(init));
        assert forall j :: 0 <= j < |items| ==> j == |items| - 1 || items[j] == init[j];
      }
    }
  }
}
