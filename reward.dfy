/**
 * The reward catalogue and its redemption of src/controllers/rewardController.js,
 * over the Reward (src/models/Reward.js) and RedemptionHistory
 * (src/models/RedemptionHistory.js) collections.
 */
module Rewards {
  import opened Wrappers
  import opened TimeUtils
  import Checkins

  type UserId = Checkins.UserId
  type RewardId = nat

  /** A Reward document; `photo` is `null` unless some other code sets it. */
  datatype Reward = Reward(
    name: string,
    description: string,
    point: int,
    photo: Option<string>,
    stock: int,
    isAvailable: bool,
    createdAt: LocalTime,
    updatedAt: LocalTime)

  /** A RedemptionHistory document `{ reward, user }` with its `_id` and `createdAt`. */
  datatype Redemption = Redemption(id: nat, reward: RewardId, user: UserId, createdAt: LocalTime)

  /** The request to take `amount` points from `user` once a redemption goes through. */
  datatype Deduction = Deduction(user: UserId, amount: int)

  // ---------------------------------------------------------------------
  // The two formatters
  // ---------------------------------------------------------------------

  /** What `formatResponse` returns: every field but `photo`. */
  datatype RewardView = RewardView(
    id: RewardId,
    name: string,
    description: string,
    point: int,
    stock: int,
    isAvailable: bool,
    createdAt: LocalTime,
    updatedAt: LocalTime)

  function FormatResponse(id: RewardId, r: Reward): (v: RewardView)
    ensures v.id == id && v.name == r.name && v.description == r.description
    ensures v.point == r.point && v.stock == r.stock && v.isAvailable == r.isAvailable
    ensures v.createdAt == r.createdAt && v.updatedAt == r.updatedAt
  {
    RewardView(id, r.name, r.description, r.point, r.stock, r.isAvailable, r.createdAt, r.updatedAt)
  }

  /** Two rewards look the same through `formatResponse` exactly when they differ at most in `photo`. */
  lemma FormatResponseHidesOnlyPhoto(id: RewardId, a: Reward, b: Reward)
    ensures FormatResponse(id, a) == FormatResponse(id, b) <==> a.(photo := b.photo) == b
  {
    if FormatResponse(id, a) == FormatResponse(id, b) {
      assert a.name == b.name && a.description == b.description && a.point == b.point;
      assert a.stock == b.stock && a.isAvailable == b.isAvailable;
      assert a.createdAt == b.createdAt && a.updatedAt == b.updatedAt;
    }
  }

  /** The `{ id, name, description }` kept of a populated reward. */
  datatype RewardSummary = RewardSummary(id: RewardId, name: string, description: string)

  /** A redemption with its `reward` populated: absent when the reward no longer exists. */
  datatype PopulatedRedemption = PopulatedRedemption(id: nat, reward: Option<(RewardId, Reward)>, createdAt: LocalTime)

  /** What `formatRedemptionHistory` returns. */
  datatype RedemptionView = RedemptionView(id: nat, reward: Option<RewardSummary>, createdAt: LocalTime)

  function FormatRedemptionHistory(h: PopulatedRedemption): (v: RedemptionView)
    ensures v.id == h.id && v.createdAt == h.createdAt
    ensures v.reward.None? <==> h.reward.None?
    ensures h.reward.Some? ==>
      v.reward == Some(RewardSummary(h.reward.value.0, h.reward.value.1.name, h.reward.value.1.description))
  {
    match h.reward
    case None => RedemptionView(h.id, None, h.createdAt)
    case Some((rid, r)) => RedemptionView(h.id, Some(RewardSummary(rid, r.name, r.description)), h.createdAt)
  }

  // ---------------------------------------------------------------------
  // Reading the catalogue and the log
  // ---------------------------------------------------------------------

  datatype Listing<T> = ListNotFound | Listed(items: T)
  {
    function Status(): int { if ListNotFound? then 404 else 200 }
  }

  /** `getReward`: 404 on an empty catalogue, otherwise every reward formatted. */
  function GetReward(rewards: map<RewardId, Reward>): (r: Listing<map<RewardId, RewardView>>)
    ensures r.ListNotFound? <==> |rewards| == 0
    ensures r.Listed? ==>
      r.items.Keys == rewards.Keys &&
      forall id :: id in r.items ==> r.items[id] == FormatResponse(id, rewards[id])
  {
    if |rewards| == 0 then ListNotFound
    else Listed(map id | id in rewards :: FormatResponse(id, rewards[id]))
  }

  /** The `find({ user })` of `redemtionHistory`, in log order. */
  function RedemptionsOf(log: seq<Redemption>, user: UserId): (r: seq<Redemption>)
    ensures forall h :: h in r <==> h in log && h.user == user
    ensures |r| <= |log|
  {
    if log == [] then []
    else (if log[0].user == user then [log[0]] else []) + RedemptionsOf(log[1..], user)
  }

  /** `.populate('reward', 'name description')`: the reward, if it still exists. */
  function Populate(h: Redemption, rewards: map<RewardId, Reward>): (p: PopulatedRedemption)
    ensures p.id == h.id && p.createdAt == h.createdAt
    ensures p.reward.Some? <==> h.reward in rewards
    ensures p.reward.Some? ==> p.reward.value == (h.reward, rewards[h.reward])
  {
    PopulatedRedemption(h.id, if h.reward in rewards then Some((h.reward, rewards[h.reward])) else None, h.createdAt)
  }

  /**
   * `redemtionHistory`: the current user's redemptions, in log order, each
   * with its reward's id, name and description, or with no reward when that
   * reward has been deleted; 404 when the user has none.
   */
  function RedemptionHistory(log: seq<Redemption>, rewards: map<RewardId, Reward>, user: UserId): (r: Listing<seq<RedemptionView>>)
    ensures r.ListNotFound? <==> forall h :: h in log ==> h.user != user
    ensures r.Listed? ==>
      var mine := RedemptionsOf(log, user);
      |r.items| == |mine| &&
      forall k :: 0 <= k < |mine| ==>
        && r.items[k].id == mine[k].id
        && r.items[k].createdAt == mine[k].createdAt
        && (r.items[k].reward.None? <==> mine[k].reward !in rewards)
        && (mine[k].reward in rewards ==>
              r.items[k].reward == Some(RewardSummary(mine[k].reward, rewards[mine[k].reward].name,
                                                      rewards[mine[k].reward].description)))
  {
    var mine := RedemptionsOf(log, user);
    if |mine| == 0 then
      assert forall h :: h in log ==> h.user != user;
      ListNotFound
    else
      assert mine[0] in mine;
      Listed(seq(|mine|, k requires 0 <= k < |mine| => FormatRedemptionHistory(Populate(mine[k], rewards))))
  }

  // ---------------------------------------------------------------------
  // updateReward's merge
  // ---------------------------------------------------------------------

  /** The optional fields of an update request; an absent field is undefined. */
  datatype RewardPatch = RewardPatch(
    name: Option<string>,
    description: Option<string>,
    point: Option<int>,
    stock: Option<int>,
    isAvailable: Option<bool>)

  /** JavaScript's `a || b` for a string: `a` when it is a non-empty string. */
  function OrString(a: Option<string>, b: string): string
  {
    if a.Some? && a.value != "" then a.value else b
  }

  /** JavaScript's `a || b` for a number: `a` when it is present and not 0. */
  function OrNumber(a: Option<int>, b: int): int
  {
    if a.Some? && a.value != 0 then a.value else b
  }

  /** JavaScript's `a || b` for a boolean: `true` when `a` is, otherwise `b`. */
  function OrBool(a: Option<bool>, b: bool): bool
  {
    if a == Some(true) then true else b
  }

  /** The document `findByIdAndUpdate` leaves: each field `new || old`, `updatedAt` refreshed. */
  function Merge(prev: Reward, p: RewardPatch, now: LocalTime): (r: Reward)
    ensures r.photo == prev.photo && r.createdAt == prev.createdAt && r.updatedAt == now
  {
    prev.(
      name := OrString(p.name, prev.name),
      description := OrString(p.description, prev.description),
      point := OrNumber(p.point, prev.point),
      stock := OrNumber(p.stock, prev.stock),
      isAvailable := OrBool(p.isAvailable, prev.isAvailable),
      updatedAt := now)
  }

  /** A field is overwritten exactly when the request's value is truthy. */
  lemma MergeOverwritesOnlyTruthy(prev: Reward, p: RewardPatch, now: LocalTime)
    ensures Merge(prev, p, now).name == (if p.name.Some? && p.name.value != "" then p.name.value else prev.name)
    ensures Merge(prev, p, now).description ==
      (if p.description.Some? && p.description.value != "" then p.description.value else prev.description)
    ensures Merge(prev, p, now).point == (if p.point.Some? && p.point.value != 0 then p.point.value else prev.point)
    ensures Merge(prev, p, now).stock == (if p.stock.Some? && p.stock.value != 0 then p.stock.value else prev.stock)
    ensures Merge(prev, p, now).isAvailable == (p.isAvailable == Some(true) || prev.isAvailable)
  {
  }

  /** Empty strings, 0 and `false` never overwrite: such an update only refreshes `updatedAt`. */
  lemma FalsyNeverOverwrites(prev: Reward, now: LocalTime)
    ensures Merge(prev, RewardPatch(Some(""), Some(""), Some(0), Some(0), Some(false)), now) == prev.(updatedAt := now)
    ensures Merge(prev, RewardPatch(None, None, None, None, None), now) == prev.(updatedAt := now)
  {
  }

  /** No typed update can withdraw an available reward or set a stock to 0. */
  lemma MergeCannotWithdraw(prev: Reward, p: RewardPatch, now: LocalTime)
    ensures prev.isAvailable ==> Merge(prev, p, now).isAvailable
    ensures prev.stock != 0 ==> Merge(prev, p, now).stock != 0
  {
  }

  // ---------------------------------------------------------------------
  // redeemReward
  // ---------------------------------------------------------------------

  /** What `redeemReward` answers. */
  datatype RedeemOutcome = NotFound | OutOfStock | NotAvailable | InsufficientPoint | Redeemed | InternalError
  {
    function Status(): int
    {
      match this
      case NotFound => 404
      case OutOfStock => 400
      case NotAvailable => 400
      case InsufficientPoint => 400
      case Redeemed => 200
      case InternalError => 500
    }

    function Message(): string
    {
      match this
      case NotFound => "NOT_FOUND"
      case OutOfStock => "OUT_OF_STOCK"
      case NotAvailable => "REWARD_NOT_AVAILABLE"
      case InsufficientPoint => "INSUFFICIENT_POINT"
      case Redeemed => "OK"
      case InternalError => "INTERNAL_SERVER_ERROR"
    }
  }

  /**
   * The checks of `redeemReward`, in their order, for the looked-up reward
   * and the user's point `balance`.
   */
  function RedeemDecision(reward: Option<Reward>, balance: int): (r: RedeemOutcome)
    ensures r != InternalError
    ensures r == NotFound <==> reward.None?
    ensures r == OutOfStock <==> reward.Some? && reward.value.stock == 0
    ensures r == NotAvailable <==> reward.Some? && reward.value.stock != 0 && !reward.value.isAvailable
    ensures r == InsufficientPoint <==>
      reward.Some? && reward.value.stock != 0 && reward.value.isAvailable && balance < reward.value.point
    ensures r == Redeemed <==>
      reward.Some? && reward.value.stock != 0 && reward.value.isAvailable && reward.value.point <= balance
  {
    match reward
    case None => NotFound
    case Some(w) =>
      if w.stock == 0 then OutOfStock
      else if !w.isAvailable then NotAvailable
      else if balance < w.point then InsufficientPoint
      else Redeemed
  }

  /** Only a stock of exactly 0 is refused (a negative stock passes), and a balance equal to the price suffices. */
  lemma OnlyZeroStockRefused(w: Reward)
    requires w.isAvailable
    ensures RedeemDecision(Some(w), w.point) == (if w.stock == 0 then OutOfStock else Redeemed)
    ensures w.stock < 0 ==> RedeemDecision(Some(w), w.point) == Redeemed
    ensures w.stock != 0 ==> RedeemDecision(Some(w), w.point - 1) == InsufficientPoint
  {
  }

  /**
   * `redeemReward` as written: the `getTotalPoint` it imports is not
   * exported by the check-in controller, so calling it throws once a
   * reward is found, and the handler answers 500 before any write.
   */
  function RedeemAsWritten(rewards: map<RewardId, Reward>, id: RewardId): (r: RedeemOutcome)
    ensures r == NotFound <==> id !in rewards
    ensures r == InternalError <==> id in rewards
  {
    if id !in rewards then NotFound else InternalError
  }

  /** As written, no reward can ever be redeemed, whatever its stock and the user's points. */
  lemma RedeemAsWrittenNeverRedeems(rewards: map<RewardId, Reward>, id: RewardId, d: CalendarDate)
    ensures RedeemAsWritten(rewards, id) != Redeemed
    ensures var w := Reward("Toothbrush", "A soft toothbrush", 10, None, 5, true, LocalTime(d, 0), LocalTime(d, 0));
      RedeemAsWritten(rewards[id := w], id) == InternalError &&
      RedeemDecision(Some(w), 10) == Redeemed
  {
  }

  // ---------------------------------------------------------------------
  // The catalogue
  // ---------------------------------------------------------------------

  datatype StoreOutcome = StoreCreated(id: RewardId, view: RewardView) | StoreFailed
  {
    function Status(): int { if StoreCreated? then 201 else 500 }
  }

  datatype UpdateOutcome = UpdateNotFound | Updated(view: RewardView)
  {
    function Status(): int { if UpdateNotFound? then 404 else 200 }
  }

  datatype DeleteOutcome = DeleteNotFound | Deleted
  {
    function Status(): int { if DeleteNotFound? then 404 else 204 }
  }

  /**
   * The Reward collection as a map from id to document, the RedemptionHistory
   * collection, and the point deductions requested on redemption.
   * `nextId` abstracts the allocation of fresh document ids.
   */
  class RewardStore {
    var rewards: map<RewardId, Reward>
    var redemptions: seq<Redemption>
    var deductions: seq<Deduction>
    var nextId: nat

    ghost predicate Valid()
      reads this
    {
      (forall id :: id in rewards ==> id < nextId) &&
      (forall k :: 0 <= k < |redemptions| ==> redemptions[k].id < nextId)
    }

    constructor ()
      ensures Valid() && rewards == map[] && redemptions == [] && deductions == []
    {
      rewards := map[];
      redemptions := [];
      deductions := [];
      nextId := 0;
    }

    /**
     * `storeReward`: creates the reward with `photo` null. Mongoose refuses an
     * empty `name` or `description` (both are `required`), which answers 500.
     */
    method StoreReward(name: string, description: string, point: int, stock: int, isAvailable: bool, now: LocalTime)
      returns (r: StoreOutcome)
      requires Valid()
      modifies this
      ensures Valid()
      ensures r.StoreFailed? <==> name == "" || description == ""
      ensures r.StoreFailed? ==> rewards == old(rewards) && nextId == old(nextId)
      ensures r.StoreCreated? ==>
        && r.id !in old(rewards)
        && rewards == old(rewards)[r.id := Reward(name, description, point, None, stock, isAvailable, now, now)]
        && r.view == FormatResponse(r.id, rewards[r.id])
      ensures redemptions == old(redemptions) && deductions == old(deductions)
    {
      if name == "" || description == "" {
        return StoreFailed;
      }
      var id := nextId;
      rewards := rewards[id := Reward(name, description, point, None, stock, isAvailable, now, now)];
      nextId := nextId + 1;
      r := StoreCreated(id, FormatResponse(id, rewards[id]));
    }

    /** `showReward`: the formatted reward, or 404. */
    function ShowReward(id: RewardId): (r: Option<RewardView>)
      reads this
      ensures r.None? <==> id !in rewards
      ensures r.Some? ==> r.value == FormatResponse(id, rewards[id])
    {
      if id in rewards then Some(FormatResponse(id, rewards[id])) else None
    }

    /** `updateReward`: 404 for a missing id, otherwise the `new || old` merge. */
    method UpdateReward(id: RewardId, p: RewardPatch, now: LocalTime) returns (r: UpdateOutcome)
      requires Valid()
      modifies this
      ensures Valid()
      ensures r.UpdateNotFound? <==> id !in old(rewards)
      ensures r.UpdateNotFound? ==> rewards == old(rewards)
      ensures r.Updated? ==>
        && rewards == old(rewards)[id := Merge(old(rewards)[id], p, now)]
        && r.view == FormatResponse(id, rewards[id])
      ensures redemptions == old(redemptions) && deductions == old(deductions) && nextId == old(nextId)
    {
      if id !in rewards {
        return UpdateNotFound;
      }
      rewards := rewards[id := Merge(rewards[id], p, now)];
      r := Updated(FormatResponse(id, rewards[id]));
    }

    /** `deleteReward`: 404 for a missing id, otherwise that reward alone is removed (204). */
    method DeleteReward(id: RewardId) returns (r: DeleteOutcome)
      requires Valid()
      modifies this
      ensures Valid()
      ensures r.DeleteNotFound? <==> id !in old(rewards)
      ensures rewards == old(rewards) - {id}
      ensures redemptions == old(redemptions) && deductions == old(deductions) && nextId == old(nextId)
    {
      if id !in rewards {
        return DeleteNotFound;
      }
      rewards := rewards - {id};
      r := Deleted;
    }

    /**
     * `redeemReward`, with the user's point `balance` supplied by the caller
     * (the result of `getTotalPoint`). On success: that reward's stock drops
     * by one, one deduction of its price is requested, and one redemption is
     * logged, in that order; on every other outcome nothing is written.
     */
    method RedeemReward(id: RewardId, user: UserId, balance: int, now: LocalTime) returns (r: RedeemOutcome)
      requires Valid()
      modifies this
      ensures Valid()
      ensures r == RedeemDecision(if id in old(rewards) then Some(old(rewards)[id]) else None, balance)
      ensures r != Redeemed ==>
        rewards == old(rewards) && redemptions == old(redemptions) && deductions == old(deductions)
      ensures r == Redeemed ==>
        && rewards == AfterRedeem(old(rewards), id, now)
        && deductions == old(deductions) + [Deduction(user, old(rewards)[id].point)]
        && redemptions == old(redemptions) + [Redemption(old(nextId), id, user, now)]
    {
      r := RedeemDecision(if id in rewards then Some(rewards[id]) else None, balance);
      if r == Redeemed {
        var w := rewards[id];
        rewards := rewards[id := w.(stock := w.stock - 1, updatedAt := now)];
        deductions := deductions + [Deduction(user, w.point)];
        redemptions := redemptions + [Redemption(nextId, id, user, now)];
        nextId := nextId + 1;
      }
    }
  }

  /** The effect of a successful redemption on the catalogue, as a function of the map. */
  function AfterRedeem(rewards: map<RewardId, Reward>, id: RewardId, now: LocalTime): map<RewardId, Reward>
    requires id in rewards
  {
    rewards[id := rewards[id].(stock := rewards[id].stock - 1, updatedAt := now)]
  }

  /** A redemption changes the stock of that reward alone, by exactly one, and nothing else about it. */
  lemma RedeemTouchesOnlyThatStock(rewards: map<RewardId, Reward>, id: RewardId, other: RewardId, now: LocalTime)
    requires id in rewards
    ensures AfterRedeem(rewards, id, now).Keys == rewards.Keys
    ensures AfterRedeem(rewards, id, now)[id].stock == rewards[id].stock - 1
    ensures AfterRedeem(rewards, id, now)[id].(stock := rewards[id].stock, updatedAt := rewards[id].updatedAt) == rewards[id]
    ensures other in rewards && other != id ==> AfterRedeem(rewards, id, now)[other] == rewards[other]
  {
  }

  /** With one item left, the first redemption succeeds and the next is refused as out of stock. */
  lemma LastItemRedeemedOnce(rewards: map<RewardId, Reward>, id: RewardId, balance: int, now: LocalTime)
    requires id in rewards && rewards[id].stock == 1 && rewards[id].isAvailable && rewards[id].point <= balance
    ensures RedeemDecision(Some(rewards[id]), balance) == Redeemed
    ensures RedeemDecision(Some(AfterRedeem(rewards, id, now)[id]), balance) == OutOfStock
  {
  }
}
