/**
 Properties of the wrapper over whole sequences of calls: how often a purchase
 request can be answered with success, what stays fixed once the store is
 initialised, and the quirks of the failure path and of repeated
 initialisation.
 */
module IapProperties {
  import opened IapState

  /** The number of success invocations (code -1) of buy-result actions for a product id. */
  function Deliveries(log: seq<Invocation>, productId: string): nat
    decreases |log|
  {
    if log == [] then 0
    else
      var e := log[|log| - 1];
      Deliveries(log[..|log| - 1], productId) +
        (if e.BuyResultInvoked? && e.code == SuccessCode && e.product.definitionId == productId then 1 else 0)
  }

  /** The call is a `BuyProductId` for the product that the wrapper accepts in state `s`. */
  predicate AcceptsBuy(s: State, e: Event, productId: string) {
    e.BuyProductId? && e.productId == productId && BuyStep(s, productId, e.action).1 == PurchaseInitiated
  }

  /** The number of `BuyProductId` calls for a product id that are accepted when the calls run from `s`. */
  function Accepted(s: State, es: seq<Event>, productId: string): nat
    decreases |es|
  {
    if es == [] then 0
    else (if AcceptsBuy(s, es[0], productId) then 1 else 0) + Accepted(Step(s, es[0]), es[1..], productId)
  }

  /** One when a purchase of the product is queued, zero otherwise. */
  function Queued(s: State, productId: string): nat {
    if productId in s.orderQueue then 1 else 0
  }

  /** Counting deliveries over a log that has been extended. */
  lemma {:induction false} DeliveriesAppend(log: seq<Invocation>, more: seq<Invocation>, productId: string)
    ensures Deliveries(log + more, productId) == Deliveries(log, productId) + Deliveries(more, productId)
    decreases |more|
  {
    if more == [] {
      assert log + more == log;
    } else {
      assert (log + more)[..|log + more| - 1] == log + more[..|more| - 1];
      DeliveriesAppend(log, more[..|more| - 1], productId);
    }
  }

  /**
   One call keeps the balance: the success deliveries for a product plus its
   queued entry never exceed what was there before, plus one when the call
   is an accepted `BuyProductId` for that product.
   */
  lemma StepBalance(s: State, e: Event, productId: string)
    ensures Deliveries(Step(s, e).log, productId) + Queued(Step(s, e), productId)
         <= Deliveries(s.log, productId) + Queued(s, productId) + (if AcceptsBuy(s, e, productId) then 1 else 0)
  {
    var r := Step(s, e);
    var added := r.log[|s.log|..];
    assert r.log == s.log + added;
    DeliveriesAppend(s.log, added, productId);
    match e
    case Initialize(products, action) =>
      assert Deliveries(added, productId) == 0;
    case InitializeWithSubscription(products, id, apple, google, action) =>
      assert Deliveries(added, productId) == 0;
    case OnInitialized(c, x) =>
      assert Deliveries(added, productId) == 0;
    case OnInitializeFailed(reason) =>
      assert Deliveries(added, productId) == 0;
    case BuyProductId(id, action) =>
      assert added == [];
      if !AcceptsBuy(s, e, productId) && id == productId {
        assert r == s;
      }
    case ProcessPurchase(p) =>
      if p.definitionId in s.orderQueue {
        assert added == BuyResult(s.orderQueue[p.definitionId], SuccessCode, p);
        if p.definitionId == productId {
          assert Queued(r, productId) == 0;
        } else {
          assert Deliveries(added, productId) == 0;
        }
      } else {
        assert added == [];
      }
    case OnPurchaseFailed(p, reason) =>
      if p.transactionId in s.orderQueue {
        assert added == BuyResult(s.orderQueue[p.transactionId], reason, p);
      } else {
        assert added == [];
      }
      assert Deliveries(added, productId) == 0;
  }

  /**
   Every success delivery for a product consumes one accepted request: over
   any sequence of calls, deliveries plus what is still queued never exceed
   what was queued at the start plus the accepted `BuyProductId` calls for it.
   Rejected calls (a duplicate click, say) add nothing to the budget.
   */
  lemma {:induction false} DeliveredAtMostOncePerRequest(s: State, es: seq<Event>, productId: string)
    ensures Deliveries(Run(s, es).log, productId) + Queued(Run(s, es), productId)
         <= Deliveries(s.log, productId) + Queued(s, productId) + Accepted(s, es, productId)
    decreases |es|
  {
    if es != [] {
      StepBalance(s, es[0], productId);
      DeliveredAtMostOncePerRequest(Step(s, es[0]), es[1..], productId);
    }
  }

  /**
   With no new accepted request for a product, however many `ProcessPurchase`
   (or other, including rejected `BuyProductId`) events arrive for it, its
   pending request is answered with success at most once, and a product with
   nothing queued (the restore path) is never answered at all.
   */
  lemma RepeatedEventsDeliverAtMostOnce(s: State, es: seq<Event>, productId: string)
    requires Accepted(s, es, productId) == 0
    ensures Deliveries(Run(s, es).log, productId) <= Deliveries(s.log, productId) + Queued(s, productId)
    ensures productId !in s.orderQueue ==> Deliveries(Run(s, es).log, productId) == Deliveries(s.log, productId)
  {
    DeliveredAtMostOncePerRequest(s, es, productId);
    assert Deliveries(Run(s, es).log, productId) >= Deliveries(s.log, productId) by {
      RunExtendsLog(s, es);
      var r := Run(s, es);
      assert r.log == s.log + r.log[|s.log|..];
      DeliveriesAppend(s.log, r.log[|s.log|..], productId);
    }
  }

  /**
   A duplicate click between two success answers: with the product queued, a
   second `BuyProductId` for it is rejected, and the two answers deliver
   success to the first request exactly once.
   */
  lemma DoubleClickDeliversOnce(s: State, productId: string, other: Option<CallbackId>, p: Product)
    requires Purchasable(s, productId) && productId in s.orderQueue && s.orderQueue[productId].Some?
    requires p.definitionId == productId
    ensures var es := [BuyProductId(productId, other), ProcessPurchase(p), ProcessPurchase(p)];
      Accepted(s, es, productId) == 0 &&
      Run(s, es).log == s.log + [BuyResultInvoked(s.orderQueue[productId].value, SuccessCode, p)]
  {
    var es := [BuyProductId(productId, other), ProcessPurchase(p), ProcessPurchase(p)];
    var s1 := Step(s, es[0]);
    assert s1 == s;
    var s2 := Step(s1, es[1]);
    var s3 := Step(s2, es[2]);
    assert s3 == s2;
    assert Run(s, es) == Run(s1, es[1..]);
    assert Run(s1, es[1..]) == Run(s2, es[2..]);
    assert Run(s2, es[2..]) == Run(s3, []);
    assert Accepted(s, es, productId) == Accepted(s1, es[1..], productId);
    assert Accepted(s1, es[1..], productId) == Accepted(s2, es[2..], productId);
    assert Accepted(s2, es[2..], productId) == Accepted(s3, [], productId);
  }

  /** A sequence of calls only ever appends to the log and to the SDK calls. */
  lemma {:induction false} RunExtendsLog(s: State, es: seq<Event>)
    ensures |s.log| <= |Run(s, es).log| && Run(s, es).log[..|s.log|] == s.log
    ensures |s.calls| <= |Run(s, es).calls| && Run(s, es).calls[..|s.calls|] == s.calls
    decreases |es|
  {
    if es != [] {
      var t := Step(s, es[0]);
      RunExtendsLog(t, es[1..]);
      assert Run(s, es) == Run(t, es[1..]);
      assert Run(s, es).log[..|s.log|] == Run(s, es).log[..|t.log|][..|s.log|];
      assert Run(s, es).calls[..|s.calls|] == Run(s, es).calls[..|t.calls|][..|s.calls|];
    }
  }

  /** No call hands the store controller or extension provider a null value. */
  predicate StoreAnswersWithHandles(es: seq<Event>) {
    forall i :: 0 <= i < |es| && es[i].OnInitialized? ==> es[i].controller.Some? && es[i].extensions.Some?
  }

  /**
   Once initialised, the wrapper stays initialised, every later `Initialize`
   is rejected (the stored action never changes and the SDK is never asked to
   initialise again), and the only SDK calls made are purchase requests.
   */
  lemma {:induction false} InitializedIsFinal(s: State, es: seq<Event>)
    requires Initialized(s)
    requires StoreAnswersWithHandles(es)
    ensures Initialized(Run(s, es))
    ensures Run(s, es).initAction == s.initAction
    ensures |s.calls| <= |Run(s, es).calls| && Run(s, es).calls[..|s.calls|] == s.calls
    ensures forall i :: |s.calls| <= i < |Run(s, es).calls| ==> Run(s, es).calls[i].InitiatePurchase?
    decreases |es|
  {
    if es != [] {
      var t := Step(s, es[0]);
      assert es[0].OnInitialized? ==> es[0].controller.Some? && es[0].extensions.Some?;
      assert Initialized(t);
      assert t.initAction == s.initAction;
      assert |t.calls| <= |s.calls| + 1;
      assert |t.calls| == |s.calls| + 1 ==> t.calls[|s.calls|].InitiatePurchase?;
      assert StoreAnswersWithHandles(es[1..]) by {
        forall i | 0 <= i < |es[1..]| && es[1..][i].OnInitialized?
          ensures es[1..][i].controller.Some? && es[1..][i].extensions.Some?
        {
          assert es[1..][i] == es[i + 1];
        }
      }
      InitializedIsFinal(t, es[1..]);
      var r := Run(t, es[1..]);
      assert r.calls[..|s.calls|] == r.calls[..|t.calls|][..|s.calls|];
      forall i | |s.calls| <= i < |r.calls| ensures r.calls[i].InitiatePurchase? {
        if i >= |t.calls| {
        } else {
          assert r.calls[i] == r.calls[..|t.calls|][i] == t.calls[i];
        }
      }
    }
  }

  /**
   A second `Initialize` before the store answers replaces the stored action:
   the store's success answer then reaches only the later action.
   */
  lemma PendingInitializeIsOverwritten(s: State, first: seq<IapProduct>, firstAction: Option<CallbackId>,
                                       second: seq<IapProduct>, secondAction: Option<CallbackId>,
                                       c: StoreController, x: ExtensionProvider)
    requires !Initialized(s)
    ensures var r := Run(s, [Initialize(first, firstAction), Initialize(second, secondAction), OnInitialized(Some(c), Some(x))]);
      Initialized(r) && r.log == s.log + InitResult(secondAction, SuccessCode) &&
      r.calls == s.calls + [UnityPurchasingInitialize(Catalog(first)), UnityPurchasingInitialize(Catalog(second))]
  {
    var es := [Initialize(first, firstAction), Initialize(second, secondAction), OnInitialized(Some(c), Some(x))];
    var s1 := Step(s, es[0]);
    var s2 := Step(s1, es[1]);
    var s3 := Step(s2, es[2]);
    assert Run(s, es) == Run(s1, es[1..]);
    assert Run(s1, es[1..]) == Run(s2, es[2..]);
    assert Run(s2, es[2..]) == Run(s3, []);
  }

  /**
   A failure answer never removes the queued entry, so the product cannot be
   bought again: the next `BuyProductId` for it hits the duplicate key.
   */
  lemma FailedPurchaseBlocksRebuy(s: State, productId: string, action: Option<CallbackId>,
                                  p: Product, reason: nat, retry: Option<CallbackId>)
    requires Purchasable(s, productId) && productId !in s.orderQueue
    ensures var s1 := BuyStep(s, productId, action).0;
            var s2 := OnPurchaseFailedStep(s1, p, reason);
            BuyStep(s2, productId, retry).1 == DuplicateKey && s2.orderQueue[productId] == action
  {
  }

  /**
   The failure path keys on the transaction id: a failure answer for a
   queued product whose transaction id is not itself a queued key invokes
   nothing, even though that product's request is pending.
   */
  lemma FailureKeyedByTransactionId(s: State, p: Product, reason: nat)
    requires p.definitionId in s.orderQueue && s.orderQueue[p.definitionId].Some?
    requires p.transactionId !in s.orderQueue
    ensures OnPurchaseFailedStep(s, p, reason) == s
  {
  }

  /**
   Unlike success, a failure can reach the same action again and again: each
   failure answer whose transaction id is queued with a non-null action
   invokes it once more.
   */
  lemma {:induction false} RepeatedFailuresRepeatInvocations(s: State, p: Product, reason: nat, n: nat)
    requires p.transactionId in s.orderQueue && s.orderQueue[p.transactionId].Some?
    ensures var r := Run(s, seq(n, _ => OnPurchaseFailed(p, reason)));
      r.orderQueue == s.orderQueue &&
      r.log == s.log + seq(n, _ => BuyResultInvoked(s.orderQueue[p.transactionId].value, reason, p))
    decreases n
  {
    var es := seq(n, _ => OnPurchaseFailed(p, reason));
    var inv := BuyResultInvoked(s.orderQueue[p.transactionId].value, reason, p);
    if n > 0 {
      var t := Step(s, es[0]);
      assert t.orderQueue == s.orderQueue && t.log == s.log + [inv];
      RepeatedFailuresRepeatInvocations(t, p, reason, n - 1);
      assert es[1..] == seq(n - 1, _ => OnPurchaseFailed(p, reason));
      assert s.log + seq(n, _ => inv) == t.log + seq(n - 1, _ => inv);
    } else {
      assert es == [];
    }
  }
}
