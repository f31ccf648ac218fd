/**
 The wrapper `IapPurchaser` as an object: its fields are updated in place by
 its methods, and each method is proved to move the object's state exactly as
 the matching transition of `IapState` does.
 */
module IapPurchasing {
  import opened IapState

  class IapPurchaser {
    var storeController: Option<StoreController>
    var storeExtensionProvider: Option<ExtensionProvider>
    var initializeResultAction: Option<CallbackId>
    var orderQueue: map<string, Option<CallbackId>>
    /** The callbacks invoked so far, in order. */
    var invocations: seq<Invocation>
    /** The calls made into the purchasing SDK so far, in order. */
    var storeCalls: seq<StoreCall>

    /** The object's fields as a `State` value. */
    function Current(): State
      reads this
    {
      State(storeController, storeExtensionProvider, initializeResultAction, orderQueue, invocations, storeCalls)
    }

    /** `Awake`: no handles yet and an empty queue. */
    constructor ()
      ensures Current() == Initial
    {
      storeController, storeExtensionProvider := None, None;
      initializeResultAction := None;
      orderQueue := map[];
      invocations, storeCalls := [], [];
    }

    /** True exactly when both the store controller and the extension provider are set. */
    function IsInitialized(): (b: bool)
      reads this
      ensures b <==> Initialized(Current())
    {
      storeController.Some? && storeExtensionProvider.Some?
    }

    /** The registration loop: what the builder holds after adding each product in turn. */
    method AddProducts(products: seq<IapProduct>) returns (builder: seq<ProductDefinition>)
      ensures builder == Catalog(products)
    {
      builder := [];
      var i := 0;
      while i < |products|
        invariant 0 <= i <= |products|
        invariant builder == Catalog(products[..i])
      {
        assert products[..i + 1][..i] == products[..i];
        builder := builder + [Definition(products[i])];
        i := i + 1;
      }
      assert products[..i] == products;
    }

    method Initialize(products: seq<IapProduct>, action: Option<CallbackId>)
      modifies this
      ensures Current() == InitializeStep(old(Current()), products, action)
    {
      if IsInitialized() {
        if action.Some? {
          invocations := invocations + [InitResultInvoked(action.value, SuccessCode)];
        }
        return;
      }
      initializeResultAction := action;
      var builder := AddProducts(products);
      storeCalls := storeCalls + [UnityPurchasingInitialize(builder)];
    }

    method InitializeWithSubscription(products: seq<IapProduct>, subscriptionId: string,
                                      appleId: string, googlePlayId: string, action: Option<CallbackId>)
      modifies this
      ensures Current() == InitializeWithSubscriptionStep(old(Current()), products, subscriptionId, appleId, googlePlayId, action)
    {
      if IsInitialized() {
        if action.Some? {
          invocations := invocations + [InitResultInvoked(action.value, SuccessCode)];
        }
        return;
      }
      initializeResultAction := action;
      var builder := AddProducts(products);
      builder := builder + [SubscriptionDefinition(subscriptionId, appleId, googlePlayId)];
      storeCalls := storeCalls + [UnityPurchasingInitialize(builder)];
    }

    method OnInitialized(controller: Option<StoreController>, extensions: Option<ExtensionProvider>)
      modifies this
      ensures Current() == OnInitializedStep(old(Current()), controller, extensions)
      ensures IsInitialized() <==> controller.Some? && extensions.Some?
    {
      if initializeResultAction.Some? {
        invocations := invocations + [InitResultInvoked(initializeResultAction.value, SuccessCode)];
      }
      storeController := controller;
      storeExtensionProvider := extensions;
    }

    method OnInitializeFailed(reason: nat)
      modifies this
      ensures Current() == OnInitializeFailedStep(old(Current()), reason)
    {
      if initializeResultAction.Some? {
        invocations := invocations + [InitResultInvoked(initializeResultAction.value, reason)];
      }
    }

    method BuyProductId(productId: string, action: Option<CallbackId>) returns (outcome: BuyOutcome)
      modifies this
      ensures (Current(), outcome) == BuyStep(old(Current()), productId, action)
    {
      if IsInitialized() {
        var products := storeController.value.products;
        if productId in products && products[productId] {
          if productId in orderQueue {
            return DuplicateKey;
          }
          orderQueue := orderQueue[productId := action];
          storeCalls := storeCalls + [InitiatePurchase(productId)];
          outcome := PurchaseInitiated;
        } else {
          outcome := NotAvailable;
        }
      } else {
        outcome := NotInitialized;
      }
    }

    method OnPurchaseFailed(product: Product, reason: nat)
      modifies this
      ensures Current() == OnPurchaseFailedStep(old(Current()), product, reason)
    {
      if product.transactionId in orderQueue {
        var action := orderQueue[product.transactionId];
        if action.Some? {
          invocations := invocations + [BuyResultInvoked(action.value, reason, product)];
        }
      }
    }

    method ProcessPurchase(product: Product) returns (result: PurchaseProcessingResult)
      modifies this
      ensures (Current(), result) == ProcessPurchaseStep(old(Current()), product)
    {
      var id := product.definitionId;
      if id in orderQueue {
        var action := orderQueue[id];
        orderQueue := orderQueue - {id};
        if action.Some? {
          invocations := invocations + [BuyResultInvoked(action.value, SuccessCode, product)];
        }
        assert invocations == old(invocations) + BuyResult(action, SuccessCode, product);
      }
      result := Complete;
    }
  }

  /**
   The catalog of the sample controller (one consumable, one non-consumable),
   a successful initialisation, a purchase, a second purchase of the same
   product while the first is pending, and the store's success answer
   delivered twice: the purchase action fires once, the second request is a
   duplicate key.
   */
  method SamplePurchaseSession() returns (retry: BuyOutcome, delivered: seq<Invocation>)
    ensures retry == DuplicateKey
    ensures delivered == [InitResultInvoked(0, SuccessCode), BuyResultInvoked(1, SuccessCode, Product("com.szn.unitysdkutil.10", "t1"))]
  {
    var consumable := "com.szn.unitysdkutil.10";
    var removeAds := "com.szn.unitysdkutil.rmads";
    var iap := new IapPurchaser();
    iap.Initialize([IapProduct(consumable, Consumable), IapProduct(removeAds, NonConsumable)], Some(0));
    iap.OnInitialized(Some(StoreController(map[consumable := true, removeAds := true])), Some(ExtensionProvider));
    var first := iap.BuyProductId(consumable, Some(1));
    assert first == PurchaseInitiated;
    retry := iap.BuyProductId(consumable, Some(2));
    var answer := iap.ProcessPurchase(Product(consumable, "t1"));
    answer := iap.ProcessPurchase(Product(consumable, "t1"));
    delivered := iap.invocations;
  }
}
