# IapPurchaser bookkeeping model

This project models the bookkeeping inside `IapPurchaser`, a Unity component that wraps the Unity IAP purchasing SDK. The component does four things:

- it remembers whether the store has answered initialisation with success, through two handles: the store controller and the extension provider;
- it keeps the init-result action of the last `Initialize` call made while not initialised;
- it keeps a queue of pending purchase requests, from product id to a nullable buy-result action;
- it forwards the store's answers to those actions.

Everything else in the component is a relay to the SDK. The model represents the SDK only by what the wrapper observes of it: the products the store controller knows, the handles, and the calls the wrapper makes into it. A callback is a number, and a null callback is `None`. Invoking a callback appends an `Invocation` to a log. Calling the SDK appends a `StoreCall`.

Three modules:

- `IapState` (iap_state.dfy): the state as a value. It has one pure transition per entry point of the wrapper, an `Event` type for those entry points, and `Run` for a sequence of calls.
- `IapProperties` (iap_properties.dfy): lemmas over sequences of calls. They cover at-most-once success delivery per request, the finality of initialisation, and the quirks of the failure path and of repeated initialisation.
- `IapPurchasing` (iap_purchaser.dfy): the class `IapPurchaser` with the source's fields, updated in place. Each method is proved to change the object's state exactly as the matching transition of `IapState` does. The registration loop of both `Initialize` overloads is the method `AddProducts`, proved to build `Catalog(products)`.

The model keeps these behaviours of the code as they are written, though a cleaner purchase-session design would differ:

- a failure answer looks the request up by the product's transaction id, not its product id, and never removes it;
- `BuyProductId` invokes no callback when it rejects a request: it only logs, and a duplicate request makes `Dictionary.Add` throw (`DuplicateKey`);
- `Initialize` is accepted whenever the handles are not both set. This includes while an earlier initialisation is still pending, and the later call then replaces the stored action;
- a `ProcessPurchase` with no queued entry only logs. There is no separate restoration callback;
- `OnInitialized` keeps the stored action and invokes it before it sets the handles.

## Model

| member | source | states |
|---|---|---|
| IapState.Catalog | Assets/Scripts/IapPurchaser.cs:60-65 | The products added to the builder are exactly the input products, one per input, each with that product's id and kind and no store-specific ids, in array order |
| IapState.SubscriptionDefinition | Assets/Scripts/IapPurchaser.cs:93-96 | The extra product is a Subscription under the given id, with exactly the Apple App Store id and the Google Play id as store-specific ids |
| IapState.InitializeStep | Assets/Scripts/IapPurchaser.cs:47-67 | When already initialised, the only effect is the given action (if non-null) invoked with -1: the stored action, the queue, the handles and the SDK calls are unchanged. Otherwise the given action replaces the stored one, the SDK is asked once to initialise with the products in array order, and nothing else changes |
| IapState.InitializeWithSubscriptionStep | Assets/Scripts/IapPurchaser.cs:69-99 | As for the first overload, except that the catalog sent to the SDK is the input products followed by one Subscription product carrying the Apple and Google Play ids |
| IapState.OnInitializedStep | Assets/Scripts/IapPurchaser.cs:101-108 | Both handles are taken from the store, so the wrapper is initialised exactly when both are non-null. The stored action (if non-null) is invoked with -1. The queue, the stored action and the SDK calls are unchanged |
| IapState.OnInitializeFailedStep | Assets/Scripts/IapPurchaser.cs:110-115 | The stored action (if non-null) is invoked with the failure code. Nothing else changes, so an uninitialised wrapper stays uninitialised |
| IapState.BuyStep | Assets/Scripts/IapPurchaser.cs:118-141 | A purchase starts exactly when the wrapper is initialised, the product exists, is available and is not queued. It then adds exactly the entry id to action, keeps every other entry, and makes one purchase request. A purchasable product that is already queued is the duplicate-key error. Uninitialised is reported as such. In every case other than a started purchase the state is unchanged, and no callback fires in any case |
| IapState.ProcessPurchaseStep | Assets/Scripts/IapPurchaser.cs:202-213 | The answer is always Complete. A queued entry for the product's definition id is removed, all other entries are kept, and its action (if non-null) is invoked once with -1 and the product. With no entry (the restore path) the state is unchanged |
| IapState.OnPurchaseFailedStep | Assets/Scripts/IapPurchaser.cs:183-187 | Only the log changes, so the queue is never changed. When the product's transaction id is a queued key, that entry's action (if non-null) is invoked with the failure code. Otherwise nothing is invoked |
| IapState.Step | Assets/Scripts/IapPurchaser.cs:42-213 | Only `OnInitialized` changes the handles. Only the two `Initialize` overloads change the stored action. Only `BuyProductId` adds keys to the queue. The callback log and the SDK calls are only extended |
| IapProperties.StepBalance | Assets/Scripts/IapPurchaser.cs:202-206 | One call never increases the success deliveries for a product plus its queued entry, except by one for a `BuyProductId` of that product that the wrapper accepts |
| IapProperties.DeliveredAtMostOncePerRequest | Assets/Scripts/IapPurchaser.cs:128-206 | Over any sequence of calls, the success deliveries for a product plus its still-queued entry are at most what was queued at the start plus the number of accepted `BuyProductId` calls for it. Rejected calls, such as a duplicate click, add nothing. So each accepted request is answered with success at most once |
| IapProperties.RepeatedEventsDeliverAtMostOnce | Assets/Scripts/IapPurchaser.cs:203-211 | Without a new accepted request, any number of events (rejected `BuyProductId` calls included) for a product add at most one success delivery for it. If nothing was queued for it (the restore path), they add none |
| IapProperties.DoubleClickDeliversOnce | Assets/Scripts/IapPurchaser.cs:124-128 | With a product queued, a second `BuyProductId` for it is rejected, and two later success answers invoke the first request's action exactly once, with -1 |
| IapProperties.InitializedIsFinal | Assets/Scripts/IapPurchaser.cs:50-55 | Once initialised, and as long as the store answers with non-null handles, the wrapper stays initialised. The stored action never changes, and every later SDK call is a purchase request: re-initialisation is always rejected |
| IapProperties.PendingInitializeIsOverwritten | Assets/Scripts/IapPurchaser.cs:57-66 | Two `Initialize` calls before the store answers both reach the SDK, and the success answer invokes only the second call's action |
| IapProperties.FailedPurchaseBlocksRebuy | Assets/Scripts/IapPurchaser.cs:183-187 | After an accepted purchase and any failure answer, the entry is still queued with its action, so buying the same product again is the duplicate-key error |
| IapProperties.FailureKeyedByTransactionId | Assets/Scripts/IapPurchaser.cs:184 | A failure answer for a product with a pending request whose transaction id is not a queued key changes nothing and invokes nothing |
| IapProperties.RepeatedFailuresRepeatInvocations | Assets/Scripts/IapPurchaser.cs:183-187 | n failure answers whose transaction id is queued with a non-null action leave the queue unchanged and invoke that action n times with the failure code |
| IapPurchasing.IapPurchaser.constructor | Assets/Scripts/IapPurchaser.cs:37-41 | A new wrapper has no handles, no stored action, an empty queue and no callbacks or SDK calls |
| IapPurchasing.IapPurchaser.IsInitialized | Assets/Scripts/IapPurchaser.cs:42-45 | True exactly when both the store controller and the extension provider are set |
| IapPurchasing.IapPurchaser.AddProducts | Assets/Scripts/IapPurchaser.cs:86-90 | The registration loop builds exactly `Catalog(products)`: every input product, in array order |
| IapPurchasing.IapPurchaser.Initialize | Assets/Scripts/IapPurchaser.cs:47-67 | The new state of the object is `InitializeStep` of the old one |
| IapPurchasing.IapPurchaser.InitializeWithSubscription | Assets/Scripts/IapPurchaser.cs:69-99 | The new state of the object is `InitializeWithSubscriptionStep` of the old one |
| IapPurchasing.IapPurchaser.OnInitialized | Assets/Scripts/IapPurchaser.cs:101-108 | The new state of the object is `OnInitializedStep` of the old one, and `IsInitialized` holds afterwards exactly when both handles given are non-null |
| IapPurchasing.IapPurchaser.OnInitializeFailed | Assets/Scripts/IapPurchaser.cs:110-115 | The new state of the object is `OnInitializeFailedStep` of the old one |
| IapPurchasing.IapPurchaser.BuyProductId | Assets/Scripts/IapPurchaser.cs:118-141 | The new state and the outcome are `BuyStep` of the old state |
| IapPurchasing.IapPurchaser.OnPurchaseFailed | Assets/Scripts/IapPurchaser.cs:179-188 | The new state of the object is `OnPurchaseFailedStep` of the old one |
| IapPurchasing.IapPurchaser.ProcessPurchase | Assets/Scripts/IapPurchaser.cs:190-214 | The new state and the answer are `ProcessPurchaseStep` of the old state |
| IapPurchasing.SamplePurchaseSession | Assets/Scripts/Controller.cs:13-34 | A session on the sample controller's two products runs as follows: initialise, the store answers, buy the consumable, buy it again while it is pending, then deliver the success answer twice. The second buy is the duplicate-key error, and the callbacks invoked are the init action once and the first buy action once |

## Left out

- `RestorePurchases` (Assets/Scripts/IapPurchaser.cs:143-176): it branches on the running platform and hands over to the SDK asynchronously. It changes none of the modelled state.
- Assets/Scripts/Controller.cs: UI wiring only. `SamplePurchaseSession` replays its catalog as a client of the class.
- The lazy singleton `Instance`, `Awake` and `DontDestroyOnLoad`: the constructor stands for `Awake` and gives an empty queue. The initial capacity of 5 has no observable effect.
- `storeController` and `storeExtensionProvider` are static fields in the source. The model keeps them in the one object, which is the same for a single instance.
- The purchasing SDK itself is represented only by its observable effect. This covers `ConfigurationBuilder`, `UnityPurchasing.Initialize`, `InitiatePurchase`, receipts, metadata and the `IDs` store mapping. The store controller is a map from product id to "available to purchase". A lookup by store-specific id inside `WithID` is not modelled.
- Failure reasons are taken as the non-negative integer codes of the SDK's enums. The wrapper's `(int)` cast of the SDK's enum (Assets/Scripts/IapPurchaser.cs:114, :186) is not modelled; the model takes the integer code. Because the codes are non-negative, a failure code never equals the success code -1.
- `Debug.Log` and all string formatting.
- The asynchronous, store-driven order of callbacks: every call is a separate step, run in sequence.
- Callbacks are not run. What a callback does, including calling back into the wrapper or throwing, is not modelled; its invocation is recorded in the log.
- Null arguments: a null product array, a null product id and a null transaction id would make the source throw (`NullReferenceException`, `ArgumentNullException`). The model's sequences and strings cannot be null.
