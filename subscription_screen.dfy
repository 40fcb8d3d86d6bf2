/** The FreshSkinCoach subscription screen: which view it renders, and the
    subscribe and restore handlers that hand store receipts to `subscribe`. */
module SubscriptionScreen {
  import opened Wrappers
  import opened Text
  import opened ClientApi
  import opened IapHook
  import Ordering

  const PROD_ID: string := "com.skincoach.premium_monthly"

  /** The platform tag sent with a receipt. */
  function PlatformFor(productId: string): (p: Platform)
    ensures p == Google <==> StartsWith(productId, "com.android")
    ensures p == Apple <==> !StartsWith(productId, "com.android")
  {
    if StartsWith(productId, "com.android") then Google else Apple
  }

  datatype View = Loading | ErrorText(message: string) | NoOffer | Offer(product: Product)

  /** Render precedence: loading, then a non-empty error, then an empty
      catalogue, then the first product's offer. */
  function Render(loadingProducts: bool, error: Option<string>, products: seq<Product>): (v: View)
    ensures v == Loading <==> loadingProducts
    ensures v.ErrorText? <==> !loadingProducts && error.Some? && error.value != ""
    ensures v.ErrorText? ==> v.message == error.value
    ensures v == NoOffer <==> !loadingProducts && (error.None? || error.value == "") && products == []
    ensures v.Offer? ==> v.product == products[0]
  {
    if loadingProducts then Loading
    else if error.Some? && error.value != "" then ErrorText(error.value)
    else if products == [] then NoOffer
    else Offer(products[0])
  }

  /** The first history entry for `productId` (`results?.find(...)`). */
  function FindPurchase(history: Option<seq<Purchase>>, productId: string): (r: Option<Purchase>)
    ensures r.Some? ==> history.Some? && r.value in history.value && r.value.productId == productId
    ensures r.Some? ==> exists k :: 0 <= k < |history.value| && history.value[k] == r.value &&
                         forall j :: 0 <= j < k ==> history.value[j].productId != productId
    ensures r.None? ==> history.None? || forall p :: p in history.value ==> p.productId != productId
  {
    if history.None? then None
    else match Ordering.FirstIndex(history.value, (p: Purchase) => p.productId == productId)
      case None => None
      case Some(k) => Some(history.value[k])
  }

  datatype Alert = Alert(title: string, message: string)

  /** `Alert.alert("Erreur", e.message || fallback)`. */
  function ErrorAlert(message: string, fallback: string): (a: Alert)
    ensures a.title == "Erreur"
    ensures a.message == (if message == "" then fallback else message)
  {
    Alert("Erreur", if message == "" then fallback else message)
  }

  /** What the screen asks of the hook and of the session controller. */
  datatype Call =
    | BuyItem(productId: string)
    | ReadHistory
    | Subscribe(receipt: Option<string>, platform: Platform)
    | Restore

  function SubscribeCall(p: Purchase): Call {
    Subscribe(p.transactionReceipt, PlatformFor(p.productId))
  }

  /** One `subscribe` call per receipt, in order. */
  function SubscribeCalls(receipts: seq<Purchase>): (r: seq<Call>)
    ensures |r| == |receipts|
    ensures forall i :: 0 <= i < |receipts| ==> r[i] == SubscribeCall(receipts[i])
  {
    Ordering.Map(receipts, SubscribeCall)
  }

  /** Index of the first receipt whose `subscribe` throws. */
  function FirstRejected(receipts: seq<Purchase>, subscribe: Purchase -> Outcome<string>): Option<nat> {
    Ordering.FirstIndex(receipts, (p: Purchase) => subscribe(p).Fail?)
  }

  const PREMIUM_ALERT := Alert("\U{1F389}", "Vous \U{ea}tes maintenant Premium !")
  const NOTHING_TO_RESTORE := Alert("\U{2139}\U{FE0F}", "Aucun achat \U{e0} restaurer.")
  const RESTORED_ALERT := Alert("\U{1F504}", "Restauration r\U{e9}ussie !")
  const NOT_FOUND := "Achat non retrouv\U{e9}"
  const SUBSCRIBE_FALLBACK := "\U{c9}chec de la souscription"
  const RESTORE_FALLBACK := "\U{c9}chec de la restauration"

  /** Sends `subscribe` for each receipt in order until one throws. */
  method SubscribeEach(receipts: seq<Purchase>, subscribe: Purchase -> Outcome<string>)
    returns (calls: seq<Call>, r: Outcome<string>)
    ensures match FirstRejected(receipts, subscribe)
      case None => r == Pass && calls == SubscribeCalls(receipts)
      case Some(k) => r == Fail(subscribe(receipts[k]).error) && calls == SubscribeCalls(receipts[..k + 1])
  {
    calls := [];
    var i := 0;
    while i < |receipts|
      invariant 0 <= i <= |receipts|
      invariant calls == SubscribeCalls(receipts[..i])
      invariant forall j :: 0 <= j < i ==> subscribe(receipts[j]).Pass?
    {
      calls := calls + [SubscribeCall(receipts[i])];
      assert calls == SubscribeCalls(receipts[..i + 1]);
      if subscribe(receipts[i]).Fail? {
        Ordering.FirstIndexAt(receipts, (p: Purchase) => subscribe(p).Fail?, i);
        return calls, Fail(subscribe(receipts[i]).error);
      }
      i := i + 1;
    }
    assert receipts[..i] == receipts;
    r := Pass;
  }

  class Screen {
    var loading: bool
    var calls: seq<Call>
    var alerts: seq<Alert>

    constructor ()
      ensures !loading && calls == [] && alerts == []
    {
      loading := false;
      calls := [];
      alerts := [];
    }

    /** `onSubscribe`: buy, read the store history, then `subscribe` with the
        first entry for `PROD_ID`; a missing entry fails without subscribing. */
    method OnSubscribe(buy: Outcome<string>, history: StoreReply<Purchase>, subscribe: Outcome<string>)
      modifies this
      ensures !loading
      ensures buy.Fail? ==>
        calls == old(calls) + [BuyItem(PROD_ID)] &&
        alerts == old(alerts) + [ErrorAlert(buy.error, SUBSCRIBE_FALLBACK)]
      ensures buy.Pass? && history.Threw? ==>
        calls == old(calls) + [BuyItem(PROD_ID), ReadHistory] &&
        alerts == old(alerts) + [ErrorAlert(history.message, SUBSCRIBE_FALLBACK)]
      ensures buy.Pass? && history.Replied? && FindPurchase(history.results, PROD_ID).None? ==>
        calls == old(calls) + [BuyItem(PROD_ID), ReadHistory] &&
        alerts == old(alerts) + [ErrorAlert(NOT_FOUND, SUBSCRIBE_FALLBACK)]
      ensures buy.Pass? && history.Replied? && FindPurchase(history.results, PROD_ID).Some? ==>
        calls == old(calls) + [BuyItem(PROD_ID), ReadHistory,
                               SubscribeCall(FindPurchase(history.results, PROD_ID).value)] &&
        alerts == old(alerts) + [if subscribe.Pass? then PREMIUM_ALERT else ErrorAlert(subscribe.error, SUBSCRIBE_FALLBACK)]
    {
      loading := true;
      calls := calls + [BuyItem(PROD_ID)];
      if buy.Fail? {
        alerts := alerts + [ErrorAlert(buy.error, SUBSCRIBE_FALLBACK)];
        loading := false;
        return;
      }
      calls := calls + [ReadHistory];
      if history.Threw? {
        alerts := alerts + [ErrorAlert(history.message, SUBSCRIBE_FALLBACK)];
        loading := false;
        return;
      }
      var p := FindPurchase(history.results, PROD_ID);
      if p.None? {
        alerts := alerts + [ErrorAlert(NOT_FOUND, SUBSCRIBE_FALLBACK)];
        loading := false;
        return;
      }
      calls := calls + [SubscribeCall(p.value)];
      if subscribe.Fail? {
        alerts := alerts + [ErrorAlert(subscribe.error, SUBSCRIBE_FALLBACK)];
      } else {
        alerts := alerts + [PREMIUM_ALERT];
      }
      loading := false;
    }

    /** `onRestore`: restore the purchases, then `subscribe` once per receipt in
        order, stopping at the first failure; no receipt means no `subscribe`. */
    method OnRestore(restore: Result<seq<Purchase>, string>, subscribe: Purchase -> Outcome<string>)
      modifies this
      ensures !loading
      ensures restore.Err? ==>
        calls == old(calls) + [Restore] && alerts == old(alerts) + [ErrorAlert(restore.error, RESTORE_FALLBACK)]
      ensures restore.Ok? && restore.value == [] ==>
        calls == old(calls) + [Restore] && alerts == old(alerts) + [NOTHING_TO_RESTORE]
      ensures restore.Ok? && restore.value != [] ==>
        match FirstRejected(restore.value, subscribe)
        case None =>
          calls == old(calls) + [Restore] + SubscribeCalls(restore.value) &&
          alerts == old(alerts) + [RESTORED_ALERT]
        case Some(k) =>
          calls == old(calls) + [Restore] + SubscribeCalls(restore.value[..k + 1]) &&
          alerts == old(alerts) + [ErrorAlert(subscribe(restore.value[k]).error, RESTORE_FALLBACK)]
    {
      loading := true;
      calls := calls + [Restore];
      if restore.Err? {
        alerts := alerts + [ErrorAlert(restore.error, RESTORE_FALLBACK)];
      } else if restore.value == [] {
        alerts := alerts + [NOTHING_TO_RESTORE];
      } else {
        var made, outcome := SubscribeEach(restore.value, subscribe);
        calls := calls + made;
        if outcome.Pass? {
          alerts := alerts + [RESTORED_ALERT];
        } else {
          alerts := alerts + [ErrorAlert(outcome.error, RESTORE_FALLBACK)];
        }
      }
      loading := false;
    }
  }

  /** Restoring with every receipt accepted subscribes once per receipt. */
  lemma RestoreSubscribesAll(receipts: seq<Purchase>, subscribe: Purchase -> Outcome<string>)
    requires forall p :: p in receipts ==> subscribe(p).Pass?
    ensures FirstRejected(receipts, subscribe) == None
  {
    forall k | 0 <= k < |receipts| ensures subscribe(receipts[k]).Pass? {
      assert receipts[k] in receipts;
    }
  }
}
