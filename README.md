# Storefront cart and GraphQL composables, modelled in Dafny

This project models the logic of a storefront front-end's composables:

- **Cart line-item manager** (`useCart`): an ordered list of `CartItem`s changed in place.
  `addToCart` either adds one unit to the first item with the product's id or appends a new
  item with quantity 1. `removeFromCart` filters out every item with the id. `updateQuantity`
  stores a quantity on the first matching item. The derived values are `totalItems` and `totalPrice`.
- **Fetch wrapper** (`useGraphQL().execute`): turns whatever the network did into a
  `GraphQLResponse` value and never raises. The network's outcome is the input datatype
  `FetchOutcome`.
- **Query executor** (`useQuery().fetch`) and **mutation executor** (`useMutation().mutate`):
  each has the three cells `data`, `loading` and `error`, and runs one awaited call through a
  fixed sequence of updates. The query absorbs a failure into `error`. The mutation records it
  and then raises it again. The settled `execute` promise is an input (`Settlement`). The
  lemmas `Queries.FetchHttpError`, `Queries.FetchBody`, `Queries.FetchNeverFallsBack` and
  `Mutations.MutateHttpError` compose the executors with `GraphQL.Execute`.

Files: `wrappers.dfy` (Option, Result), `decimal.dfy` (how a status code is written in a
message), `graphql.dfy`, `cart.dfy`, `executor.dfy` (the cells and updates both executors share),
`query.dfy`, `mutation.dfy`, `agreement.dfy` (the two executors compared).

Modelling choices:
- The response payload is a small `Json` datatype. This makes `response.data || null` explicit:
  a falsy payload (`null`, `false`, `0`, `""`) is stored as null.
- A present `errors` array is an `ErrorList(first, rest)`, so it is never empty.
- `response.ok` is derived from the status: true for 200 to 299, as the Fetch standard defines it.
- `Thrown` is what a `catch` receives: an `Error` with its message, or any other value.
- A line item is a value in a `seq` field of the `Cart` class. Updating an item replaces it
  at its position.
- The `Cart` class does not enforce unique ids, because `items` is exposed to callers and
  nothing in the source keeps ids unique. Instead, every operation is proved to keep ids
  unique when they were unique before.
- The code has none of the following behaviours, and neither has the model:
  - removal of an item by `updateQuantity` with a quantity of 0 or less: the quantity is stored and the item stays;
  - a `clear()` operation, or local-storage persistence of the cart;
  - a default for a missing `image`: it is copied as is;
  - joining several error messages: only the first one is kept;
  - a retry of `useQuery` during hydration;
  - a choice between a server endpoint and a browser endpoint in `execute`.

## Model

| member | source | states |
|---|---|---|
| Decimal.FromNat | composables/useGraphQL.ts:35 | the rendered status is a non-empty string of digits with no leading zero (except "0") |
| Decimal.ToNatFromNat | composables/useGraphQL.ts:35 | reading the rendered status back gives the status |
| Decimal.FromNatInjective | composables/useGraphQL.ts:35 | distinct statuses render differently |
| GraphQL.OrNull | composables/useQuery.ts:22 | `d \|\| null` is `d` exactly when `d` is present and truthy, otherwise null |
| GraphQL.Truthy | composables/useQuery.ts:22 | a JSON value is falsy exactly when it is `null`, `false`, `0` or the empty string |
| GraphQL.ErrorList.Entries | composables/useGraphQL.ts:5-12 | an errors array has at least one entry, and the first entry is `first` |
| GraphQL.HttpOk | composables/useGraphQL.ts:34 | `response.ok` holds exactly when the status is in the 2xx range (its hundreds digit is 2) |
| GraphQL.Failed | composables/useGraphQL.ts:50 | `{ errors: [{ message }] }` is a failure value: no data, and one error entry with that message and no locations or path |
| GraphQL.Caught | composables/useGraphQL.ts:46-53 | the catch block gives a failure value with a thrown `Error`'s message, or with the fixed fallback message for any other thrown value |
| GraphQL.Execute | composables/useGraphQL.ts:19-53 | the result has no errors exactly when the status is 2xx and the parsed body has no `errors`, and then it is that body unchanged; every other result has no data and exactly one error; a non-2xx status gives "HTTP error! status: " plus the status; a 2xx body with errors gives its first message only; a thrown `Error` gives its message; any other thrown value gives the fixed fallback |
| GraphQL.HttpErrorMessage | composables/useGraphQL.ts:35 | the HTTP error message starts with the fixed prefix "HTTP error! status: " and is longer than it; `HttpErrorMessageNamesStatus` and `HttpErrorMessageInjective` say what follows the prefix |
| GraphQL.HttpErrorMessageNamesStatus | composables/useGraphQL.ts:34-35 | the HTTP error message is the fixed prefix followed by exactly `FromNat(status)`, the canonical digits of the status, which read back as the status |
| GraphQL.HttpErrorMessageInjective | composables/useGraphQL.ts:34-35 | two statuses with the same HTTP error message are equal |
| Carts.FindIndex | composables/useCart.ts:18 | `find` yields the first index whose item has the id, or nothing exactly when no item has it |
| Carts.NewItem | composables/useCart.ts:23-29 | the pushed item has quantity 1 and the product's id, name, price and image as they are; `AddNew` says where it goes |
| Carts.Added | composables/useCart.ts:17-31 | after `addToCart` the list has the product's id and grows by one exactly when the id was absent; `AddNew`, `AddExisting`, `AddKeepsIdsUnique` and `AddIncrementsTotal` give the rest |
| Carts.Removed | composables/useCart.ts:33-35 | the filtered list is shorter by exactly the number of items with the id; `RemovedContents`, `RemovedConcat`, `RemovedAbsent`, `RemovedIdempotent` and `RemovedUnique` give the rest |
| Carts.Updated | composables/useCart.ts:37-42 | after `updateQuantity` the list has the same length, and each item is unchanged or has only its quantity set to the new value; `UpdatedContents` says which item |
| Carts.QuantitySum | composables/useCart.ts:44-46 | the quantity sum is 0 for an empty list and non-negative when every quantity is |
| Carts.PriceSum | composables/useCart.ts:48-52 | the price total of an empty list is 0 |
| Carts.ReduceQuantity | composables/useCart.ts:44-46 | the source's left-to-right `reduce` over quantities; with no negative quantity it never ends below its start value, and ReduceQuantityIsSum gives its exact value |
| Carts.ReducePrice | composables/useCart.ts:48-52 | the source's left-to-right `reduce` over parsed price times quantity; with no negative price or quantity it never ends below its start value, and ReducePriceIsSum gives its exact value |
| Carts.ReduceQuantityIsSum | composables/useCart.ts:44-46 | the source's left-to-right accumulation of quantities from a start value is that value plus the quantity sum |
| Carts.ReducePriceIsSum | composables/useCart.ts:48-52 | the source's left-to-right accumulation of price times quantity from a start value is that value plus the price total |
| Carts.QuantitySumReplace | composables/useCart.ts:44-46 | replacing one item changes the quantity sum by the difference of the two quantities |
| Carts.PriceSumReplace | composables/useCart.ts:48-52 | replacing one item changes the price total by the difference of the two contributions |
| Carts.PriceSumBump | composables/useCart.ts:48-52 | one more unit of item k raises the price total by that item's price |
| Carts.QuantitySumAppend | composables/useCart.ts:44-46 | appending an item adds its quantity to the sum |
| Carts.PriceSumAppend | composables/useCart.ts:48-52 | appending an item adds its price times quantity to the total |
| Carts.QuantitySumConcat | composables/useCart.ts:44-46 | the quantity sum of a concatenation is the sum of the two sums |
| Carts.QuantitySumSplit | composables/useCart.ts:44-46 | the quantity sum of a list is the sum before position k, plus the quantity at k, plus the sum after k |
| Carts.AddNew | composables/useCart.ts:22-29 | for a new id, exactly one item is appended at the end, with quantity 1 and id, name, price and image copied; all earlier items are unchanged |
| Carts.AddExisting | composables/useCart.ts:18-21 | for a known id, the length is unchanged, the first item with that id gains exactly 1, and every other item is unchanged |
| Carts.AddKeepsIdsUnique | composables/useCart.ts:17-31 | unique ids stay unique after an add, and the id set gains exactly the product's id |
| Carts.AddIncrementsTotal | composables/useCart.ts:17-31 | every add raises `totalItems` by exactly 1 |
| Carts.AddRaisesPrice | composables/useCart.ts:17-31 | every add raises the price total by one unit price: the stored item's price for a known id, the product's price for a new one |
| Carts.AddRaisesPriceAt | composables/useCart.ts:18-21 | adding a product whose id is first found at k raises the price total by item k's stored price |
| Carts.UniqueIdsCount | composables/useCart.ts:15 | a list with unique ids has as many ids as items |
| Carts.AddedAllCounts | composables/useCart.ts:17-31 | after a series of adds, ids stay unique, the ids are the old ones plus the products' ids, there is one item per distinct id, and `totalItems` grows by the number of adds |
| Carts.AddedAllFromEmpty | composables/useCart.ts:15-31 | adds into the empty cart give one item per distinct product id and a `totalItems` equal to the number of adds |
| Carts.RemovedContents | composables/useCart.ts:33-35 | after a removal no item has the id, an item stays exactly when its id differs, and the list does not grow |
| Carts.RemovedConcat | composables/useCart.ts:33-35 | filtering commutes with concatenation, so kept items keep their relative order |
| Carts.RemovedAbsent | composables/useCart.ts:33-35 | removing an absent id leaves the list unchanged |
| Carts.RemovedIdempotent | composables/useCart.ts:33-35 | removing twice equals removing once |
| Carts.RemovedUnique | composables/useCart.ts:33-35 | with unique ids, removing the id of item k deletes exactly item k |
| Carts.RemovedKeepsIdsUnique | composables/useCart.ts:33-35 | filtering keeps ids unique |
| Carts.RemovedTotal | composables/useCart.ts:33-35 | with unique ids, a removal lowers `totalItems` by the removed item's quantity, or leaves it unchanged when the id is absent |
| Carts.UpdatedContents | composables/useCart.ts:37-42 | the first item with the id takes the new quantity, whatever its sign, and stays in the list; the length and every other item are unchanged; an absent id leaves the list as it was |
| Carts.UpdatedKeepsIds | composables/useCart.ts:37-42 | an update changes no id, so unique ids stay unique |
| Carts.UpdatedTotal | composables/useCart.ts:37-42 | an update replaces the first match's quantity with the new one in `totalItems` |
| Carts.Cart.constructor | composables/useCart.ts:15 | a new cart is empty |
| Carts.Cart.Find | composables/useCart.ts:18 | the front-to-back scan returns the first matching index, as `FindIndex` characterises it |
| Carts.Cart.AddToCart | composables/useCart.ts:17-31 | the new list is `Added` of the old one, unique ids stay unique, and `totalItems` rises by 1 |
| Carts.Cart.RemoveFromCart | composables/useCart.ts:33-35 | the new list is the filtered old list, no item has the id, and unique ids stay unique |
| Carts.Cart.UpdateQuantity | composables/useCart.ts:37-42 | the new list is `Updated` of the old one, with the same length, and unique ids stay unique |
| Carts.Cart.TotalItems | composables/useCart.ts:44-46 | `totalItems`, computed as the source's left-to-right `reduce` from 0, equals the quantity sum `QuantitySum` |
| Carts.Cart.TotalPrice | composables/useCart.ts:48-52 | `totalPrice`, computed as the source's left-to-right `reduce` from 0, equals the price total `PriceSum` |
| Executors.CaughtMessage | composables/useQuery.ts:24 | the catch block keeps an `Error`'s message, and uses the fallback for any other value |
| Executors.TryRaises | composables/useQuery.ts:16-20 | the try block raises exactly when `execute` rejected or its response has errors: it raises the rejection reason as it is, or an `Error` with the first message when the response has errors |
| Executors.Started | composables/useQuery.ts:12-13 | on entry `loading` is true, `error` is null, and `data` is untouched |
| Executors.Settled | composables/useQuery.ts:15-28 | afterwards `loading` is false; on a failure `data` keeps its value and `error` holds the caught message; otherwise `data` is the response's data or null, and `error` is unchanged |
| Queries.Fetched | composables/useQuery.ts:11-29 | after one whole `fetch`, `loading` is false and `error` is set exactly when the try block raised |
| Queries.FetchResult | composables/useQuery.ts:11-29 | after `fetch`, `loading` is false, `error` is set exactly on failure, a response with errors leaves the prior data and its first message, and one without errors gives `data \|\| null` and no error |
| Queries.FetchHttpError | composables/useQuery.ts:11-29 | combined with `execute`, a non-2xx status keeps the prior data and records the HTTP error message |
| Queries.FetchBody | composables/useQuery.ts:11-29 | combined with `execute`, a 2xx body with errors records its first message and keeps the data; one without errors stores its data or null |
| Queries.FetchNeverFallsBack | composables/useQuery.ts:23-24 | combined with `execute`, a failing `fetch` records the first message of `execute`'s response, never the fallback |
| Queries.Query.constructor | composables/useQuery.ts:7-9 | `data` starts null, `loading` false, and `error` null |
| Queries.Query.Start | composables/useQuery.ts:12-13 | the cells become `Started` of the old cells |
| Queries.Query.Settle | composables/useQuery.ts:15-28 | the cells become `Settled` of the old cells, with nothing returned or raised |
| Queries.Query.Fetch | composables/useQuery.ts:11-29 | while suspended, the cells are `Started`; at the end they are `Settled` after `Started` |
| Mutations.MutateReturn | composables/useMutation.ts:15-26 | `mutate` returns `response.data` as is exactly when there are no errors; a response with errors raises an `Error` with the first message; a rejected `execute` raises the same value again |
| Mutations.Mutated | composables/useMutation.ts:10-30 | after one whole `mutate`, `loading` is false and `error` is set exactly when the call raises |
| Mutations.MutateResult | composables/useMutation.ts:10-30 | after `mutate`, `loading` is false on both paths; it raises exactly when it records an error, and then `data` is unchanged and `error` is the raised message; on success `data` is the data or null, and `error` is null |
| ExecutorAgreement.MutationAgreesWithQuery | composables/useMutation.ts:10-30 | `mutate` leaves the same cells as `useQuery`'s `fetch`, apart from the fallback text for a non-`Error` value, and raises exactly when `fetch` records an error |
| Mutations.MutateHttpError | composables/useMutation.ts:10-30 | combined with `execute`, a non-2xx status raises and records the HTTP error message, and keeps the prior data |
| Mutations.Mutation.constructor | composables/useMutation.ts:6-8 | `data` starts null, `loading` false, and `error` null |
| Mutations.Mutation.Start | composables/useMutation.ts:11-12 | the cells become `Started` of the old cells |
| Mutations.Mutation.Settle | composables/useMutation.ts:14-28 | the cells become `Settled` with the mutation's fallback, and the result is `MutateReturn` |
| Mutations.Mutation.Mutate | composables/useMutation.ts:10-30 | while suspended, the cells are `Started`; at the end they are `Mutated`, and the call returns or raises as `MutateReturn` says |

## Left out

- The request itself (useGraphQL.ts:17, 21-32) is I/O and is not modelled: the fixed endpoint `/graphql`, the method and headers, `credentials`, and the `JSON.stringify` body. The network is the input `FetchOutcome`.
- The `query` and `variables` arguments of `useQuery`, `useMutation` and `mutate` are not modelled. They are only passed on to `execute`, whose result is an input.
- All `console.*` logging.
- `useRuntimeConfig()` in useGraphQL.ts is called but its value is unused.
- An `errors` field that is an empty array is not modelled. Reading `errors[0].message` would throw a `TypeError` whose text comes from the engine.
- A 2xx JSON body that is not an object is not carried by `Response`. For a `null` body, reading `.errors` throws a `TypeError` inside the `try`; this case is `ReadFailed` with the thrown value. For any other non-object body (a number, string, boolean or array), `.errors` is `undefined` and `execute` returns the value itself. That value is not modelled. For `fetch` and `mutate` it acts as `Parsed(Response(None, None))`: `fetch` stores null with no error, and `mutate` returns `undefined`.
- Numbers are ideal: NaN and floating rounding are not modelled. This affects truthiness of a numeric payload, quantities (integers here, with no fractions) and the price total.
- Carts.PriceSum: `parseFloat` is the parameter `parse`, and the arithmetic is exact. Nothing is claimed about how malformed prices are treated. In the source such a price gives NaN.
- Object identity and aliasing are not modelled. Cart items are objects the UI can change directly, and a new item shares the product's `image` object.
- Calls that overlap and the suspension between them are not modelled. Each `fetch` or `mutate` is the two steps `Start` followed by `Settle`.
- server/api/graphql.ts is not part of this model: it is an HTTP relay with logging.
- plugins/apollo.ts and composables/apollo.ts are not part of this model: they are client construction and dependency-injection wiring.
- nuxt.config.ts, graphql/mutations.ts and types/graphql.d.ts are not part of this model: they are configuration, a query document and type declarations.
