/** The Galactic War temporary-reinforcement list: a registry from uid to
    reinforcement item, updated in place from info messages, whose items are
    enabled exactly when the player can afford them. */
module Reinforcements {

  /** The fields of a `temporary_reinforcements_info` message the registry
      and its items use. */
  datatype ReinforcementInfo = ReinforcementInfo(uid: int, price: int, hidden: bool)

  /** Whether a visible item with this price is enabled at this credit
      balance: disabled when `credits < price`, enabled otherwise. */
  predicate CanBuy(credits: int, price: int)
  {
    !(credits < price)
  }

  /** The enabled state the credit check leaves on one item: a hidden item
      keeps the one it had. */
  function CheckedState(credits: int, price: int, hidden: bool, was: bool): (r: bool)
    ensures !hidden ==> (r <==> credits >= price)
    ensures hidden ==> r == was
  {
    if hidden then was else CanBuy(credits, price)
  }

  /** One entry of the list. Its uid never changes; price and visibility come
      from the info messages. */
  class ReinforcementItem {
    const uid: int
    var price: int
    var hidden: bool
    var enabled: bool

    /** `ReinforcementItem(uid)`: not yet filled from a message. */
    constructor(id: int)
      ensures uid == id && price == 0 && !hidden && enabled
    {
      uid := id;
      price := 0;
      hidden := false;
      enabled := true;
    }

    /** `update(message, parent)`, reduced to the price and visibility it
        copies from the message. */
    method Update(info: ReinforcementInfo)
      modifies this`price, this`hidden
      ensures price == info.price && hidden == info.hidden
    {
      price := info.price;
      hidden := info.hidden;
    }

    method SetEnabled()
      modifies this`enabled
      ensures enabled
    {
      enabled := true;
    }

    method SetDisabled()
      modifies this`enabled
      ensures !enabled
    {
      enabled := false;
    }
  }

  /** `TemporaryWidget` (src/galacticWar/reinforcements/temporaryitems.py:27-69):
      the registry `reinforcements` of the items shown, by uid. `uids` lists
      its keys once each, in the order `updateCreditsCheck` visits them. The
      dictionary promises no order of its own; the model fixes one (new uids
      last), and the outcome of the credit check does not depend on it,
      since each step touches only the item of its own key. */
  class TemporaryWidget {
    var reinforcements: map<int, ReinforcementItem>
    var uids: seq<int>

    /** Each item is registered under its own uid, so different keys hold
        different items; `uids` lists every key once. */
    ghost predicate Valid()
      reads this
    {
      && (forall u :: u in reinforcements ==> reinforcements[u].uid == u)
      && (forall u :: u in reinforcements ==> u in uids)
      && (forall i :: 0 <= i < |uids| ==> uids[i] in reinforcements)
      && (forall a, b :: 0 <= a < b < |uids| ==> uids[a] != uids[b])
    }

    /** Every visible item is enabled exactly when `credits` covers its
        price. */
    ghost predicate Affordable(credits: int)
      reads this, reinforcements.Values
    {
      forall u :: u in reinforcements && !reinforcements[u].hidden ==>
        (reinforcements[u].enabled <==> credits >= reinforcements[u].price)
    }

    /** The registry starts empty
        (src/galacticWar/reinforcements/temporaryitems.py:41). */
    constructor()
      ensures Valid() && reinforcements == map[]
    {
      reinforcements := map[];
      uids := [];
    }

    /** `updateCreditsCheck(credits)`
        (src/galacticWar/reinforcements/temporaryitems.py:49-57): every
        visible item is disabled when `credits` is below its price and
        enabled otherwise; hidden items, prices and the keys stay as they
        were. */
    method UpdateCreditsCheck(credits: int)
      requires Valid()
      modifies reinforcements.Values
      ensures Valid() && Affordable(credits)
      ensures forall u :: u in reinforcements ==>
        && reinforcements[u].price == old(reinforcements[u].price)
        && reinforcements[u].hidden == old(reinforcements[u].hidden)
        && reinforcements[u].enabled == CheckedState(credits, old(reinforcements[u].price),
                                                     old(reinforcements[u].hidden), old(reinforcements[u].enabled))
    {
      for i := 0 to |uids|
        invariant forall u :: u in reinforcements ==>
          && reinforcements[u].price == old(reinforcements[u].price)
          && reinforcements[u].hidden == old(reinforcements[u].hidden)
        invariant forall u :: u in reinforcements && u in uids[..i] ==>
          reinforcements[u].enabled == CheckedState(credits, reinforcements[u].price,
                                                    reinforcements[u].hidden, old(reinforcements[u].enabled))
        invariant forall u :: u in reinforcements && u !in uids[..i] ==>
          reinforcements[u].enabled == old(reinforcements[u].enabled)
      {
        var item := reinforcements[uids[i]];
        if !item.hidden {
          if credits < item.price {
            item.SetDisabled();
          } else {
            item.SetEnabled();
          }
        }
        assert uids[..i + 1] == uids[..i] + [uids[i]];
      }
      assert uids[..|uids|] == uids;
    }

    /** `processReinforcementInfo(message)`
        (src/galacticWar/reinforcements/temporaryitems.py:59-69): an unknown
        uid gets a new item, whose key the model visits last, and a known one
        keeps its item; either way the item is updated from the message, no
        other key is added, and the credit check against `credits` (the
        parent's balance) runs over the whole registry, leaving hidden items
        with the flag they had (a new item's is enabled). */
    method ProcessReinforcementInfo(info: ReinforcementInfo, credits: int)
      requires Valid()
      modifies this, reinforcements.Values
      ensures Valid() && Affordable(credits)
      ensures reinforcements.Keys == old(reinforcements.Keys) + {info.uid}
      ensures info.uid in old(reinforcements) ==> reinforcements == old(reinforcements) && uids == old(uids)
      ensures info.uid !in old(reinforcements) ==>
        && fresh(reinforcements[info.uid])
        && reinforcements == old(reinforcements)[info.uid := reinforcements[info.uid]]
        && uids == old(uids) + [info.uid]
      ensures reinforcements[info.uid].price == info.price && reinforcements[info.uid].hidden == info.hidden
      ensures reinforcements[info.uid].enabled ==
        CheckedState(credits, info.price, info.hidden,
                     if info.uid in old(reinforcements) then old(reinforcements[info.uid].enabled) else true)
      ensures forall u :: u in old(reinforcements) && u != info.uid ==>
        && reinforcements[u].price == old(reinforcements[u].price)
        && reinforcements[u].hidden == old(reinforcements[u].hidden)
        && reinforcements[u].enabled == CheckedState(credits, old(reinforcements[u].price),
                                                     old(reinforcements[u].hidden), old(reinforcements[u].enabled))
    {
      var uid := info.uid;
      if uid !in reinforcements {
        var item := new ReinforcementItem(uid);
        reinforcements := reinforcements[uid := item];
        uids := uids + [uid];
        item.Update(info);
      } else {
        reinforcements[uid].Update(info);
      }
      UpdateCreditsCheck(credits);
    }
  }
}
