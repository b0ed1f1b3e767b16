# BillingAPI order pipeline, modelled in Dafny

This project models the decision logic of BillingAPI, a small order-billing
service. The service takes an order, validates it, looks up a payment
gateway by name, charges the order through that gateway, and then stores an
immutable receipt. Three pieces are modelled:

- **`BillingService`** (module `Billing`). `ValidateOrder` is a pure chain of
  four guards. `ProcessOrder` is the imperative pipeline: validate, resolve
  gateway, charge, refuse a declined payment, refuse a duplicate order number
  *after* the charge, stage the receipt, commit. `GetReceipt` is a read-only
  lookup that fails with NotFound.
- **The gateway registries** (modules `Gateways`, `MockGateways`,
  `GatewayFactories`). `PaymentGatewayFactory` and `MockPaymentGatewayFactory`
  are classes whose `gateways` map is updated in place. The mock factory adds
  `InitializeDefaultGateways`. The registry interface the service depends on
  is `GatewayFactory`, a datatype whose two constructors are these two
  classes.
- **`ReceiptRepository`** (module `ReceiptStore`). This is a class holding a
  `staged` and a `committed` sequence of receipts. `Add` stages a receipt.
  `SaveChanges` commits all staged receipts, or none of them if the database
  schema would be violated. The schema has a unique index on OrderNumber, a
  primary key on Id, and a non-null TransactionId column. The two lookups
  search only committed receipts. `Valid()` is the invariant that committed
  receipts satisfy the schema; in particular their order numbers are unique.

Modelling choices:

- Nullable strings are `Option<string>`.
- `decimal` amounts are `int` minor units (hundredths, the scale of the
  `decimal(18,2)` column).
- Exceptions are `Result`/`Outcome` values carrying a `BillingError`:
  `Validation`, `NotFound`, `PaymentProcessing` or `StorageError`.
- `string.IsNullOrWhiteSpace` is `IsBlank`, built on the code-point list that
  .NET documents for `char.IsWhiteSpace`.
- `ProcessOrder` receives three values as parameters:
  - the gateway's answer, `payment`, a `PaymentResult` with IsSuccess,
    TransactionId and Message;
  - the generated receipt id `id`, which replaces `Guid.NewGuid`;
  - the timestamp `now`, which replaces `DateTime.UtcNow`.
- A ghost out-parameter `charged` records which gateway was asked to take
  the payment, if any. This is how the model states that invalid orders
  never reach a gateway, and that duplicates are charged before they are
  refused.

Neither registry validates what it is given: `RegisterGateway` checks
neither the id nor the gateway, and `GetGateway` looks up an empty id like
any other. The order guards reject a string that is null or white space
only, not merely an empty one.

## Model

| member | source | states |
|---|---|---|
| `Models.AllWhiteSpaceIffEveryChar` | BillingAPI.Services/Services/BillingService.cs:76 | the recursive white-space test holds exactly when every character is white space, which is the meaning of IsNullOrWhiteSpace on a present string |
| `Models.BlankExamples` | BillingAPI.Services/Services/BillingService.cs:76-97 | a missing string, the empty string and a white-space-only string are blank; "ORD123" and " x " are not |
| `Gateways.PaymentGatewayFactory.constructor` | BillingAPI.Services/PaymentGateways/PaymentGatewayFactory.cs:9-15 | a new registry holds no gateway |
| `Gateways.PaymentGatewayFactory.GetGateway` | BillingAPI.Services/PaymentGateways/PaymentGatewayFactory.cs:17-27 | succeeds exactly when the id is registered, returning the registered gateway; otherwise NotFound "No payment gateway registered for ID: {id}"; the map is not modified |
| `Gateways.PaymentGatewayFactory.RegisterGateway` | BillingAPI.Services/PaymentGateways/PaymentGatewayFactory.cs:29-33 | the id is bound to the gateway, replacing any earlier binding without error; every other id keeps its binding or its absence |
| `Gateways.FreshRegistryResolvesNothing` | BillingAPI.Services/PaymentGateways/PaymentGatewayFactory.cs:9-23 | on a freshly built registry every lookup fails with NotFound naming the id |
| `Gateways.RegisterThenResolve` | BillingAPI.Services/PaymentGateways/PaymentGatewayFactory.cs:17-33 | on any registry, registering a gateway and then looking up its id returns that gateway |
| `Gateways.LastRegistrationWins` | BillingAPI.Services/PaymentGateways/PaymentGatewayFactory.cs:29-31 | on any registry, two registrations under one id raise no error, and the lookup returns the second gateway |
| `MockGateways.MockPaymentGatewayFactory.constructor` | BillingAPI.Services/PaymentGateways/MockGateways/MockPaymentGatewayFactory.cs:9-15 | a new mock registry holds no gateway |
| `MockGateways.MockPaymentGatewayFactory.GetGateway` | BillingAPI.Services/PaymentGateways/MockGateways/MockPaymentGatewayFactory.cs:17-27 | succeeds exactly when the id is registered, returning that gateway; otherwise NotFound naming the id; the map is not modified |
| `MockGateways.MockPaymentGatewayFactory.RegisterGateway` | BillingAPI.Services/PaymentGateways/MockGateways/MockPaymentGatewayFactory.cs:29-33 | binds the id to the gateway, overwriting silently; other ids are unchanged |
| `MockGateways.MockPaymentGatewayFactory.InitializeDefaultGateways` | BillingAPI.Services/PaymentGateways/MockGateways/MockPaymentGatewayFactory.cs:36-41 | afterwards "Stripe" maps to MockStripe and "PayPal" maps to MockPayPal, whatever they held before; no other id changes |
| `MockGateways.DefaultGatewaysResolve` | BillingAPI.Tests/Unit/PaymentGateways/MockPaymentGatewayFactoryTests.cs:21-46 | on any mock registry, after bootstrap "Stripe" resolves to the mock Stripe gateway and "PayPal" to the mock PayPal gateway |
| `MockGateways.UnregisteredGatewayFails` | BillingAPI.Tests/Unit/PaymentGateways/MockPaymentGatewayFactoryTests.cs:48-67 | looking up "NonExistentGateway" fails with NotFound "No payment gateway registered for ID: NonExistentGateway" |
| `MockGateways.MockRegisterThenResolve` | BillingAPI.Tests/Unit/PaymentGateways/MockPaymentGatewayFactoryTests.cs:69-117 | on any mock registry, a registered gateway is what the lookup of its id returns |
| `MockGateways.MockRegistrationOverwrites` | BillingAPI.Tests/Unit/PaymentGateways/MockPaymentGatewayFactoryTests.cs:119-145 | on any mock registry, a second registration under the same id replaces the first |
| `MockGateways.DefaultsOverwriteEarlierRegistration` | BillingAPI.Services/PaymentGateways/MockGateways/MockPaymentGatewayFactory.cs:38-39 | on any mock registry, bootstrapping replaces a custom gateway registered earlier under "Stripe" |
| `GatewayFactories.GatewayFactory.GetGateway` | BillingAPI.Core/Factories/IPaymentGatewayFactory.cs:3-7 | whichever registry backs the service, the lookup succeeds exactly on registered ids and otherwise fails with NotFound naming the id |
| `ReceiptStore.Find` | BillingAPI.Infrastructure/Repositories/ReceiptRepository.cs:19 | finds a receipt exactly when some receipt has the order number; what it finds has that order number and is the first such receipt |
| `ReceiptStore.FindUnique` | BillingAPI.Infrastructure/Data/BillingDbContext.cs:17 | when order numbers are unique, each receipt is exactly what its own order number finds |
| `ReceiptStore.DuplicateNeverCommitted` | BillingAPI.Infrastructure/Data/BillingDbContext.cs:17 | a commit that would give a committed order number a second row violates the unique index, whatever else is in the batch |
| `ReceiptStore.CommitFreshReceipt` | BillingAPI.Infrastructure/Data/BillingDbContext.cs:14-19 | one receipt with an unused order number, an unused id and a transaction id can always be committed, and its order number then finds it |
| `ReceiptStore.ReceiptRepository.constructor` | BillingAPI.Infrastructure/Repositories/ReceiptRepository.cs:13-16 | a new store has nothing staged and nothing committed, and satisfies the invariant |
| `ReceiptStore.ReceiptRepository.Add` | BillingAPI.Infrastructure/Repositories/ReceiptRepository.cs:17 | appends the receipt to the staged receipts without checking it; committed receipts are unchanged |
| `ReceiptStore.ReceiptRepository.SaveChanges` | BillingAPI.Infrastructure/Repositories/ReceiptRepository.cs:23 | succeeds exactly when committed plus staged receipts satisfy the schema; then every staged receipt is committed in order and nothing stays staged; a refused save is a StorageError and changes nothing; the uniqueness invariant holds afterwards |
| `ReceiptStore.ReceiptRepository.OrderNumberExists` | BillingAPI.Infrastructure/Repositories/ReceiptRepository.cs:21 | true exactly when some committed receipt has the order number; staged receipts do not count |
| `ReceiptStore.ReceiptRepository.GetByOrderNumber` | BillingAPI.Infrastructure/Repositories/ReceiptRepository.cs:19 | returns a receipt exactly when the order number exists among committed receipts (so it agrees with OrderNumberExists); what it returns is committed and has that order number; under the invariant it is the only such receipt |
| `ReceiptStore.AddThenSaveIsFindable` | BillingAPI.Tests/Unit/Repositories/ReceiptRepositoryTests.cs:26-50 | adding a receipt and saving it succeeds, and the receipt is then found by its order number |
| `ReceiptStore.DuplicateSaveRefused` | BillingAPI.Infrastructure/Migrations/20250424140011_InitialCreate.Designer.cs:60-61 | saving a second receipt under a committed order number is refused with StorageError, and the first receipt is still the one found |
| `Billing.ValidateOrder` | BillingAPI.Services/Services/BillingService.cs:69-98 | passes exactly when order number, user id and gateway are all non-blank and the amount is above zero; every failure is a Validation error |
| `Billing.ValidationReportsFirstViolation` | BillingAPI.Services/Services/BillingService.cs:76-97 | with the guards in their fixed order (order number, user id, amount, gateway), the first violated guard's message is the error reported |
| `Billing.ValidationPassesIffNoViolation` | BillingAPI.Services/Services/BillingService.cs:76-97 | validation passes exactly when no guard of the table is violated |
| `Billing.LaterViolationsNotReported` | BillingAPI.Services/Services/BillingService.cs:76-97 | when two guards are violated, the later guard's message is never the one reported |
| `Billing.InvalidRequestsRejected` | BillingAPI.Tests/Unit/Services/BillingServiceTests.cs:125-144 | a missing order number, a missing user id, an amount of 0 or -10.00, and a missing gateway are each refused with their own message; the complete test order passes |
| `Billing.BillingService.constructor` | BillingAPI.Services/Services/BillingService.cs:12-17 | the service keeps the registry and the store it is given |
| `Billing.BillingService.ProcessOrder` | BillingAPI.Services/Services/BillingService.cs:19-54 | an invalid order fails with its first guard's error; an unregistered gateway gives NotFound; the gateway is charged exactly when the order is valid and its gateway registered; a declined payment gives PaymentProcessing with the gateway's message or "Payment failed for order {n}"; an order number already committed gives Validation "Order number {n} already exists" after the charge; none of these exits touches the store; otherwise the receipt is staged and the whole batch is committed, or refused by the schema with StorageError; no failure commits anything; a returned receipt carries the id, the timestamp, the order's fields and the payment's transaction id; when nothing else was staged, a new order with a fresh id and a transaction id is always stored |
| `Billing.BillingService.GetReceipt` | BillingAPI.Services/Services/BillingService.cs:56-67 | succeeds exactly when a committed receipt has the order number, returning a committed receipt with that number (under the invariant, the only one); otherwise NotFound "Receipt for order {n} not found"; the store is not modified |
| `Billing.ResubmissionChargedThenRefused` | BillingAPI.Services/Services/BillingService.cs:26-51 | after an order succeeded, submitting it again still charges the same gateway, then fails with the duplicate-order error, and the store keeps only the first receipt |
| `Billing.ProcessedOrderIsRetrievable` | BillingAPI.Services/Services/BillingService.cs:50-58 | a receipt returned by a successful submission is exactly what a later lookup of its order number returns; a failed submission of a new order number leaves that order not found |

## Left out

- HTTP boundary: routing, status-code mapping, middleware, Swagger, DI wiring and the composition root are not modelled. They are transport and configuration.
- Logging: the `ILogger` calls are not modelled, although the tests check their text.
- Asynchrony and concurrency: every call is one sequential step. The race between the duplicate check and the save is not modelled. The unique index that backstops it is modelled, as the refusal of `SaveChanges`.
- Gateway implementations: the mock gateways' delay and their GUID-based transaction ids are not modelled. The gateway's answer is a `PaymentResult` value given to `ProcessOrder`. A gateway call that throws (network failure) is not modelled.
- Id generation and the clock: these are the `id` and `now` parameters. Nothing is assumed about them, so the model does not promise that ids are unique unless the caller supplies a fresh one.
- Null order: `ValidateOrder`'s null check is unreachable, because the call to the logger dereferences the order first. The model has no null order.
- Null ids and null gateways in the registries: the dictionary throws on a null key, and a null gateway can be registered. Neither is representable here, because ids are `string` and gateways are a datatype.
- EF Core behaviour beyond the schema: change tracking, identity conflicts at `Add` time, connection retry, and decimal(18,2) precision and overflow are not modelled. Only TransactionId among the required columns can be missing in this model; the other required strings come from validated order fields.
- `GetByOrderNumber` without an ORDER BY: the database may return any matching row. The model returns the first committed one. Under the uniqueness invariant there is at most one.
- The fields of `PaymentResult` (IsSuccess, TransactionId, Message) are inferred from how the gateways and the tests use it; its own source file is not among the files modelled.
- Order numbers are compared exactly, as C# `==` and the in-memory test provider do. Under SQL Server the lookups and the unique index compare under the column's collation, which by default ignores case and trailing spaces; so "ord123" or "ORD123 " next to a committed "ORD123" is stored by the model but refused as a duplicate by such a server.
- A database failure (unreachable server, timed-out command after the configured retries) in `SaveChanges`, `OrderNumberExists` or `GetByOrderNumber` is not modelled. The model refuses a commit only when it breaks the schema, and its lookups always answer.
