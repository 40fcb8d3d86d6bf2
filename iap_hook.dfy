/** The purchase bridge of FreshSkinCoach (`useIAP`): it loads the product
    list from the platform store, finishes every unacknowledged transaction
    the purchase listener receives, starts purchases and restores the
    purchase history. Store calls are recorded in order; their answers are
    inputs of the model. */
module IapHook {
  import opened Wrappers
  import opened Text
  import Ordering

  /** `IAPResponseCode.OK` and `IAPResponseCode.ERROR` of the store library. */
  const OK: int := 0
  const ERROR: int := 2

  datatype Product = Product(productId: string)

  datatype Purchase = Purchase(orderId: string, productId: string, transactionReceipt: Option<string>, acknowledged: bool)

  /** A store call's answer: a response code with optional results, or a thrown error. */
  datatype StoreReply<T> = Replied(code: int, results: Option<seq<T>>) | Threw(message: string)

  /** What the purchase listener receives. */
  datatype PurchaseEvent = PurchaseEvent(code: int, results: Option<seq<Purchase>>, errorCode: Option<int>)

  datatype StoreCall =
    | Connect
    | GetProducts(ids: seq<string>)
    | PurchaseItem(productId: string)
    | GetHistory
    | Finish(purchase: Purchase)
    | Disconnect

  predicate Unacknowledged(p: Purchase) { !p.acknowledged }

  /** The finish calls owed to a list of purchases: one per unacknowledged entry, in order. */
  function FinishCalls(results: seq<Purchase>): (r: seq<StoreCall>)
    ensures |r| <= |results|
    ensures forall i :: 0 <= i < |r| ==> r[i].Finish? && !r[i].purchase.acknowledged
  {
    if results == [] then []
    else (if Unacknowledged(results[0]) then [Finish(results[0])] else []) + FinishCalls(results[1..])
  }

  /** Each unacknowledged purchase is finished exactly as many times as it
      occurs in the results; an acknowledged one never. */
  lemma {:induction false} FinishedExactlyOnce(results: seq<Purchase>, p: Purchase)
    ensures multiset(FinishCalls(results))[Finish(p)] ==
            if p.acknowledged then 0 else multiset(results)[p]
  {
    if results != [] {
      FinishedExactlyOnce(results[1..], p);
      assert results == [results[0]] + results[1..];
    }
  }

  /** The message `init` stores when loading the products fails, or the products. */
  function LoadProducts(connect: Outcome<string>, fetched: StoreReply<Product>): (r: Result<seq<Product>, string>)
    ensures connect.Fail? ==> r == Err(connect.error)
    ensures connect.Pass? && fetched.Replied? && fetched.code != OK ==>
      r == Err("getProductsAsync failed: code " + IntToString(fetched.code))
    ensures connect.Pass? && fetched.Threw? ==> r == Err(fetched.message)
    ensures connect.Pass? && fetched.Replied? && fetched.code == OK ==>
      r == Ok(if fetched.results.Some? then fetched.results.value else [])
    ensures r.Ok? ==> (connect.Pass? && fetched.Replied? && fetched.code == OK &&
      r.value == (if fetched.results.Some? then fetched.results.value else []))
  {
    if connect.Fail? then Err(connect.error)
    else match fetched
      case Threw(m) => Err(m)
      case Replied(code, results) =>
        if code != OK then Err("getProductsAsync failed: code " + IntToString(code))
        else Ok(if results.Some? then results.value else [])
  }

  /** Index of the first unacknowledged purchase whose finish call throws. */
  function FirstFinishFailure(results: seq<Purchase>, finish: Purchase -> Outcome<string>): Option<nat> {
    Ordering.FirstIndex(results, (q: Purchase) => FinishFails(q, finish))
  }

  /** An unacknowledged purchase whose finish call throws. */
  predicate FinishFails(q: Purchase, finish: Purchase -> Outcome<string>) {
    !q.acknowledged && finish(q).Fail?
  }

  lemma {:induction false} FinishCallsAppend(a: seq<Purchase>, b: seq<Purchase>)
    ensures FinishCalls(a + b) == FinishCalls(a) + FinishCalls(b)
  {
    if a == [] {
      assert a + b == b;
    } else {
      assert (a + b)[0] == a[0] && (a + b)[1..] == a[1..] + b;
      FinishCallsAppend(a[1..], b);
    }
  }

  class PurchaseHook {
    var products: seq<Product>
    var loadingProducts: bool
    var error: Option<string>
    var isMounted: bool
    var calls: seq<StoreCall>

    /** The hook's state when the effect starts. */
    constructor ()
      ensures products == [] && loadingProducts && error == None && isMounted && calls == []
    {
      products := [];
      loadingProducts := true;
      error := None;
      isMounted := true;
      calls := [];
    }

    /** `init`: connect, then fetch the products. Once unmounted, it updates nothing. */
    method Init(productIds: seq<string>, connect: Outcome<string>, fetched: StoreReply<Product>)
      modifies this
      ensures isMounted == old(isMounted)
      ensures calls == old(calls) + (if connect.Fail? then [Connect] else [Connect, GetProducts(productIds)])
      ensures !old(isMounted) ==>
        products == old(products) && error == old(error) && loadingProducts == old(loadingProducts)
      ensures old(isMounted) ==> (!loadingProducts &&
        match LoadProducts(connect, fetched)
        case Ok(ps) => products == ps && error == old(error)
        case Err(m) => products == old(products) && error == Some(m))
    {
      calls := calls + [Connect];
      var outcome: Result<seq<Product>, string>;
      if connect.Fail? {
        outcome := Err(connect.error);
      } else {
        calls := calls + [GetProducts(productIds)];
        match fetched {
          case Threw(m) =>
            outcome := Err(m);
          case Replied(code, results) =>
            if code != OK {
              outcome := Err("getProductsAsync failed: code " + IntToString(code));
            } else {
              outcome := Ok(if results.Some? then results.value else []);
            }
        }
      }
      if outcome.Ok? && isMounted {
        products := outcome.value;
      } else if outcome.Err? && isMounted {
        error := Some(outcome.error);
      }
      if isMounted {
        loadingProducts := false;
      }
    }

    /** The effect's cleanup. */
    method Unmount()
      modifies this`isMounted, this`calls
      ensures !isMounted && calls == old(calls) + [Disconnect]
    {
      isMounted := false;
      calls := calls + [Disconnect];
    }

    /** The purchase listener: an ERROR response records the error code and
        finishes nothing; otherwise every unacknowledged result is finished,
        and a finish that throws is ignored. */
    method OnPurchase(e: PurchaseEvent)
      modifies this`error, this`calls
      ensures e.code == ERROR ==>
        calls == old(calls) &&
        error == Some("Purchase error: " + (if e.errorCode.Some? then IntToString(e.errorCode.value) else "undefined"))
      ensures e.code != ERROR ==>
        error == old(error) &&
        calls == old(calls) + FinishCalls(if e.results.Some? then e.results.value else [])
    {
      if e.code == ERROR {
        error := Some("Purchase error: " + (if e.errorCode.Some? then IntToString(e.errorCode.value) else "undefined"));
        return;
      }
      var results := if e.results.Some? then e.results.value else [];
      var i := 0;
      while i < |results|
        invariant 0 <= i <= |results|
        invariant calls == old(calls) + FinishCalls(results[..i])
        invariant error == old(error)
      {
        if !results[i].acknowledged {
          calls := calls + [Finish(results[i])];
        }
        FinishCallsAppend(results[..i], [results[i]]);
        assert results[..i + 1] == results[..i] + [results[i]];
        i := i + 1;
      }
      assert results[..i] == results;
    }

    /** `buy`: clears the error, then starts the purchase. */
    method Buy(productId: string)
      modifies this`error, this`calls
      ensures error == None && calls == old(calls) + [PurchaseItem(productId)]
    {
      error := None;
      calls := calls + [PurchaseItem(productId)];
    }

    /** `restorePurchases`: a non-OK history code throws before anything is
        finished; otherwise each unacknowledged entry is finished in order (a
        finish that throws ends the restore) and every entry is returned. */
    method RestorePurchases(connect: Outcome<string>, history: StoreReply<Purchase>, finish: Purchase -> Outcome<string>)
      returns (r: Result<seq<Purchase>, string>)
      modifies this`error, this`calls
      ensures error == None
      ensures connect.Fail? ==> r == Err(connect.error) && calls == old(calls) + [Connect]
      ensures connect.Pass? && history.Threw? ==>
        r == Err(history.message) && calls == old(calls) + [Connect, GetHistory]
      ensures connect.Pass? && history.Replied? && history.code != OK ==>
        r == Err("restore failed: code " + IntToString(history.code)) && calls == old(calls) + [Connect, GetHistory]
      ensures connect.Pass? && history.Replied? && history.code == OK ==>
        var results := if history.results.Some? then history.results.value else [];
        match FirstFinishFailure(results, finish)
        case None =>
          r == Ok(results) && calls == old(calls) + [Connect, GetHistory] + FinishCalls(results) + [Disconnect]
        case Some(k) =>
          r == Err(finish(results[k]).error) && calls == old(calls) + [Connect, GetHistory] + FinishCalls(results[..k + 1])
    {
      error := None;
      calls := calls + [Connect];
      if connect.Fail? {
        return Err(connect.error);
      }
      calls := calls + [GetHistory];
      assert calls == old(calls) + [Connect, GetHistory];
      if history.Threw? {
        return Err(history.message);
      }
      if history.code != OK {
        return Err("restore failed: code " + IntToString(history.code));
      }
      var results := if history.results.Some? then history.results.value else [];
      var finished, outcome := FinishAll(results, finish);
      calls := calls + finished;
      if outcome.Ok? {
        calls := calls + [Disconnect];
      }
      r := outcome;
    }
  }

  /** The loop of `restorePurchases`: finish each unacknowledged entry in order
      and collect every entry; the first finish that throws ends the loop.
      Returns the finish calls made and the receipts or the thrown message. */
  method FinishAll(results: seq<Purchase>, finish: Purchase -> Outcome<string>)
    returns (finished: seq<StoreCall>, r: Result<seq<Purchase>, string>)
    ensures match FirstFinishFailure(results, finish)
      case None => r == Ok(results) && finished == FinishCalls(results)
      case Some(k) => r == Err(finish(results[k]).error) && finished == FinishCalls(results[..k + 1])
  {
    finished := [];
    var receipts: seq<Purchase> := [];
    var i := 0;
    while i < |results|
      invariant 0 <= i <= |results|
      invariant receipts == results[..i]
      invariant finished == FinishCalls(results[..i])
      invariant forall j :: 0 <= j < i ==> !FinishFails(results[j], finish)
    {
      var p := results[i];
      FinishCallsAppend(results[..i], [p]);
      assert results[..i + 1] == results[..i] + [p];
      if !p.acknowledged {
        finished := finished + [Finish(p)];
        if finish(p).Fail? {
          Ordering.FirstIndexAt(results, (q: Purchase) => FinishFails(q, finish), i);
          return finished, Err(finish(p).error);
        }
      }
      receipts := receipts + [p];
      i := i + 1;
    }
    assert results[..i] == results;
    r := Ok(receipts);
  }

  /** A restore whose finishes all succeed returns every history entry. */
  lemma RestoreReturnsAll(results: seq<Purchase>, finish: Purchase -> Outcome<string>)
    requires forall p :: p in results ==> finish(p).Pass?
    ensures FirstFinishFailure(results, finish) == None
  {
    forall k | 0 <= k < |results| ensures finish(results[k]).Pass? {
      assert results[k] in results;
    }
  }
}
