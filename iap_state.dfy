/**
 The bookkeeping state of the in-app purchasing wrapper `IapPurchaser` as a
 value, and one pure transition function per entry point of the wrapper.

 The purchasing SDK is represented only by what the wrapper can observe of it:
 the store controller (which products exist and whether they are available to
 purchase), the extension provider, and the calls the wrapper makes into it.
 Callbacks are identified by a number; invoking one appends an entry to a log.
 */
module IapState {

  datatype Option<+T> = None | Some(value: T)

  /** The product kinds of the purchasing SDK. */
  datatype ProductType = Consumable | NonConsumable | Subscription

  /** The wrapper's `IapProduct` record: an id and a kind. */
  datatype IapProduct = IapProduct(id: string, kind: ProductType)

  /** The two stores the subscription product carries store-specific ids for. */
  datatype Store = AppleAppStore | GooglePlay

  /** One `builder.AddProduct` call: id, kind and store-specific ids (empty when none are given). */
  datatype ProductDefinition = ProductDefinition(id: string, kind: ProductType, storeIds: map<Store, string>)

  /** A callback (`UnityAction`) handed to the wrapper; `None` stands for null. */
  type CallbackId = nat

  /** The parts of an SDK `Product` the wrapper reads: its definition id and its transaction id. */
  datatype Product = Product(definitionId: string, transactionId: string)

  /** The store controller: each product it knows, by id, and whether it is available to purchase. */
  datatype StoreController = StoreController(products: map<string, bool>)

  /** The store-specific extension provider; the wrapper only tests it for null. */
  datatype ExtensionProvider = ExtensionProvider

  /** A callback invocation: an init-result action gets a code, a buy-result action a code and the product. */
  datatype Invocation =
    | InitResultInvoked(action: CallbackId, code: int)
    | BuyResultInvoked(action: CallbackId, code: int, product: Product)

  /** A call from the wrapper into the purchasing SDK. */
  datatype StoreCall =
    | UnityPurchasingInitialize(catalog: seq<ProductDefinition>)
    | InitiatePurchase(productId: string)

  /** How `BuyProductId` ends. `DuplicateKey` is the exception thrown by `Dictionary.Add`. */
  datatype BuyOutcome = PurchaseInitiated | NotInitialized | NotAvailable | DuplicateKey

  /** The SDK's answer to `ProcessPurchase`. */
  datatype PurchaseProcessingResult = Complete | Pending

  /** The code every success callback receives. Failure codes are SDK enum values, never negative. */
  const SuccessCode: int := -1

  /**
   The wrapper's fields (`storeController`, `storeExtensionProvider`,
   `initializeResultAction`, `orderQueue`) together with the callbacks invoked
   and the SDK calls made so far.
   */
  datatype State = State(
    controller: Option<StoreController>,
    extensions: Option<ExtensionProvider>,
    initAction: Option<CallbackId>,
    orderQueue: map<string, Option<CallbackId>>,
    log: seq<Invocation>,
    calls: seq<StoreCall>)

  /** The state right after `Awake`: no handles, no stored callback, an empty queue. */
  const Initial: State := State(None, None, None, map[], [], [])

  /** The wrapper's `IsInitialized`. */
  predicate Initialized(s: State) {
    s.controller.Some? && s.extensions.Some?
  }

  /** Invoking a nullable init-result action with a code. */
  function InitResult(action: Option<CallbackId>, code: int): seq<Invocation>
  {
    if action.Some? then [InitResultInvoked(action.value, code)] else []
  }

  /** Invoking a nullable buy-result action with a code and a product. */
  function BuyResult(action: Option<CallbackId>, code: int, p: Product): seq<Invocation>
  {
    if action.Some? then [BuyResultInvoked(action.value, code, p)] else []
  }

  /** `builder.AddProduct(p.Id, p.Type)`: a product without store-specific ids. */
  function Definition(p: IapProduct): ProductDefinition {
    ProductDefinition(p.id, p.kind, map[])
  }

  /** The products the registration loop adds to a fresh builder, in array order. */
  function Catalog(products: seq<IapProduct>): (r: seq<ProductDefinition>)
    ensures |r| == |products|
    ensures forall i :: 0 <= i < |products| ==>
      r[i].id == products[i].id && r[i].kind == products[i].kind && r[i].storeIds == map[]
  {
    if products == [] then []
    else Catalog(products[..|products| - 1]) + [Definition(products[|products| - 1])]
  }

  /** The subscription product that the three-id overload adds after the loop. */
  function SubscriptionDefinition(id: string, appleId: string, googlePlayId: string): (d: ProductDefinition)
    ensures d.id == id && d.kind == Subscription
    ensures d.storeIds.Keys == {AppleAppStore, GooglePlay}
    ensures d.storeIds[AppleAppStore] == appleId && d.storeIds[GooglePlay] == googlePlayId
  {
    ProductDefinition(id, Subscription, map[AppleAppStore := appleId, GooglePlay := googlePlayId])
  }

  /**
   Both `Initialize` overloads, given the products the builder ends up with:
   when already initialised, only the given action fires, with -1; otherwise
   the action is stored (replacing any earlier one) and the SDK is asked to
   initialise with the catalog.
   */
  function Configure(s: State, catalog: seq<ProductDefinition>, action: Option<CallbackId>): State
  {
    if Initialized(s) then s.(log := s.log + InitResult(action, SuccessCode))
    else s.(initAction := action, calls := s.calls + [UnityPurchasingInitialize(catalog)])
  }

  /** `Initialize(InProducts, InInitResultAction)`. */
  function InitializeStep(s: State, products: seq<IapProduct>, action: Option<CallbackId>): (r: State)
    ensures Initialized(s) ==> r.(log := s.log) == s && r.log == s.log + InitResult(action, SuccessCode)
    ensures !Initialized(s) ==>
      r.initAction == action && r.calls == s.calls + [UnityPurchasingInitialize(Catalog(products))] &&
      r.(initAction := s.initAction, calls := s.calls) == s
  {
    Configure(s, Catalog(products), action)
  }

  /** `Initialize(InProducts, InSubscriptionId, InAppleSubscription, InGooglePlaySubscription, InInitResultAction)`. */
  function InitializeWithSubscriptionStep(s: State, products: seq<IapProduct>, subscriptionId: string,
                                          appleId: string, googlePlayId: string, action: Option<CallbackId>): (r: State)
    ensures Initialized(s) ==> r.(log := s.log) == s && r.log == s.log + InitResult(action, SuccessCode)
    ensures !Initialized(s) ==>
      r.initAction == action &&
      r.calls == s.calls + [UnityPurchasingInitialize(Catalog(products) + [SubscriptionDefinition(subscriptionId, appleId, googlePlayId)])] &&
      r.(initAction := s.initAction, calls := s.calls) == s
  {
    Configure(s, Catalog(products) + [SubscriptionDefinition(subscriptionId, appleId, googlePlayId)], action)
  }

  /** `OnInitialized`: the stored action fires with -1 and both handles are taken from the store. */
  function OnInitializedStep(s: State, controller: Option<StoreController>, extensions: Option<ExtensionProvider>): (r: State)
    ensures Initialized(r) <==> controller.Some? && extensions.Some?
    ensures r.controller == controller && r.extensions == extensions
    ensures r.log == s.log + InitResult(s.initAction, SuccessCode)
    ensures r.initAction == s.initAction && r.orderQueue == s.orderQueue && r.calls == s.calls
  {
    s.(log := s.log + InitResult(s.initAction, SuccessCode), controller := controller, extensions := extensions)
  }

  /** `OnInitializeFailed`: the stored action fires with the failure code; nothing else changes. */
  function OnInitializeFailedStep(s: State, reason: nat): (r: State)
    ensures Initialized(r) == Initialized(s)
    ensures r.log == s.log + InitResult(s.initAction, reason)
    ensures r.(log := s.log) == s
  {
    s.(log := s.log + InitResult(s.initAction, reason))
  }

  /** The product exists in the initialised store and is available to purchase. */
  predicate Purchasable(s: State, productId: string) {
    Initialized(s) && productId in s.controller.value.products && s.controller.value.products[productId]
  }

  /**
   `BuyProductId`: only a purchasable product that is not already queued gets
   an entry and a purchase request; a queued one makes `Dictionary.Add` throw.
   */
  function BuyStep(s: State, productId: string, action: Option<CallbackId>): (r: (State, BuyOutcome))
    ensures r.0.log == s.log
    ensures r.0.controller == s.controller && r.0.extensions == s.extensions && r.0.initAction == s.initAction
    ensures r.1 == PurchaseInitiated <==> Purchasable(s, productId) && productId !in s.orderQueue
    ensures r.1 == NotInitialized <==> !Initialized(s)
    ensures r.1 == DuplicateKey <==> Purchasable(s, productId) && productId in s.orderQueue
    ensures r.1 == PurchaseInitiated ==>
      r.0.orderQueue.Keys == s.orderQueue.Keys + {productId} && r.0.orderQueue[productId] == action &&
      (forall k :: k in s.orderQueue ==> r.0.orderQueue[k] == s.orderQueue[k]) &&
      r.0.calls == s.calls + [InitiatePurchase(productId)]
    ensures r.1 != PurchaseInitiated ==> r.0 == s
  {
    if !Initialized(s) then (s, NotInitialized)
    else if !Purchasable(s, productId) then (s, NotAvailable)
    else if productId in s.orderQueue then (s, DuplicateKey)
    else (s.(orderQueue := s.orderQueue[productId := action], calls := s.calls + [InitiatePurchase(productId)]),
          PurchaseInitiated)
  }

  /**
   `ProcessPurchase`: a queued entry for the product's definition id is
   removed, then its action fires once with -1; with no entry (the restore
   path) nothing changes. The answer is always `Complete`.
   */
  function ProcessPurchaseStep(s: State, p: Product): (r: (State, PurchaseProcessingResult))
    ensures r.1 == Complete
    ensures r.0.controller == s.controller && r.0.extensions == s.extensions && r.0.initAction == s.initAction
    ensures r.0.calls == s.calls
    ensures p.definitionId in s.orderQueue ==>
      r.0.orderQueue.Keys == s.orderQueue.Keys - {p.definitionId} &&
      (forall k :: k in r.0.orderQueue ==> r.0.orderQueue[k] == s.orderQueue[k]) &&
      r.0.log == s.log + BuyResult(s.orderQueue[p.definitionId], SuccessCode, p)
    ensures p.definitionId !in s.orderQueue ==> r.0 == s
  {
    var id := p.definitionId;
    if id in s.orderQueue then
      (s.(orderQueue := s.orderQueue - {id}, log := s.log + BuyResult(s.orderQueue[id], SuccessCode, p)), Complete)
    else (s, Complete)
  }

  /**
   `OnPurchaseFailed`: the entry is looked up by the product's TRANSACTION id
   and is never removed; its action, when present and non-null, fires with the
   failure code.
   */
  function OnPurchaseFailedStep(s: State, p: Product, reason: nat): (r: State)
    ensures r.(log := s.log) == s
    ensures p.transactionId in s.orderQueue ==> r.log == s.log + BuyResult(s.orderQueue[p.transactionId], reason, p)
    ensures p.transactionId !in s.orderQueue ==> r.log == s.log
  {
    if p.transactionId in s.orderQueue then s.(log := s.log + BuyResult(s.orderQueue[p.transactionId], reason, p))
    else s
  }

  /** The entry points of the wrapper, each one call. */
  datatype Event =
    | Initialize(products: seq<IapProduct>, action: Option<CallbackId>)
    | InitializeWithSubscription(products: seq<IapProduct>, subscriptionId: string, appleId: string,
                                 googlePlayId: string, action: Option<CallbackId>)
    | OnInitialized(controller: Option<StoreController>, extensions: Option<ExtensionProvider>)
    | OnInitializeFailed(reason: nat)
    | BuyProductId(productId: string, action: Option<CallbackId>)
    | ProcessPurchase(product: Product)
    | OnPurchaseFailed(product: Product, reason: nat)

  /**
   One call. Only `OnInitialized` touches the handles, only the two
   `Initialize` overloads touch the stored action, and only `BuyProductId`
   adds keys to the queue.
   */
  function Step(s: State, e: Event): (r: State)
    ensures !e.OnInitialized? ==> r.controller == s.controller && r.extensions == s.extensions
    ensures !(e.Initialize? || e.InitializeWithSubscription?) ==> r.initAction == s.initAction
    ensures !e.BuyProductId? ==> r.orderQueue.Keys <= s.orderQueue.Keys
    ensures |s.log| <= |r.log| && r.log[..|s.log|] == s.log
    ensures |s.calls| <= |r.calls| && r.calls[..|s.calls|] == s.calls
  {
    match e
    case Initialize(products, action) => InitializeStep(s, products, action)
    case InitializeWithSubscription(products, id, apple, google, action) =>
      InitializeWithSubscriptionStep(s, products, id, apple, google, action)
    case OnInitialized(c, x) => OnInitializedStep(s, c, x)
    case OnInitializeFailed(reason) => OnInitializeFailedStep(s, reason)
    case BuyProductId(id, action) => BuyStep(s, id, action).0
    case ProcessPurchase(p) => ProcessPurchaseStep(s, p).0
    case OnPurchaseFailed(p, reason) => OnPurchaseFailedStep(s, p, reason)
  }

  /** A sequence of calls, in order. */
  function Run(s: State, es: seq<Event>): State
    decreases |es|
  {
    if es == [] then s else Run(Step(s, es[0]), es[1..])
  }
}
