# Cart store of the RocketShoes storefront, in Dafny

This project models the cart store of a small shopping-cart front end. The store
keeps an ordered sequence of cart lines in memory. It mirrors that sequence under
one local-storage key, and it offers three operations:

- `addProduct` looks up the product and its stock. It refuses when the cart
  already holds as many as the stock has. Otherwise it appends a line of
  quantity 1 or raises the existing line by one.
- `removeProduct` fails when the id is not in the cart. Otherwise it filters the
  id out.
- `updateProductAmount` ignores non-positive amounts and refuses amounts above
  the stock. Otherwise it sets the line's quantity. It writes the cart even when
  no line has that id.

Every successful operation writes the new cart to the in-memory state and then
to storage. A refused operation or a failed lookup writes neither. The model
takes every storage write to succeed (see Left out).

Layout:

- `cart_types.dfy` (module `CartTypes`) holds the records. These are the catalog
  `Product`, the `Stock`, the cart `Item` (the product spread together with an
  `amount`) and the four notifications (`Toast`). A `Transition` records what
  one operation did: `Write(next)`, `Skip` (silent return) or `Fail(toast)`.
- `use_cart.dfy` (module `UseCart`) holds the store. Each operation has a
  specification function (`AddProductStep`, `RemoveProductStep`,
  `UpdateProductAmountStep`) from the current cart and the lookup results to a
  `Transition`. `Find` is the linear `find` scan, proved against `IndexOf`. The
  class `CartProvider` has the two fields `cart` and `stored`. Its methods carry
  out the transitions in place. They keep the object invariant `Valid()`:
  storage mirrors the cart, or the key is unset and the cart is empty.
- `cart_properties.dfy` (module `CartProperties`) holds the lemmas. They cover
  stock bounds, unique ids, line order, refusals that write nothing, and the
  preservation of a well-formed cart. A well-formed cart has unique ids and
  positive quantities.

The product and stock lookups are HTTP reads in the TypeScript store. Here they are
parameters of type `Option`, and `None` stands for a read that threw and was
caught. The storage key is the field `stored: Option<seq<Item>>`, and `None`
means the key is unset. The notifications are the `Toast` tags in a `Fail`
transition.

Two details of the code shape the model:

- The initializer (useCart.tsx:28-29) calls `JSON.parse` without a guard, so a
  malformed stored value throws. The model takes storage as already decoded
  (see Left out).
- The new line takes its id from the product record the catalog returns
  (useCart.tsx:56, `{...product, amount: 1}`), not from the requested id. So
  uniqueness of ids is proved only when the catalog answers with the requested
  record (`AddProductPreservesWellFormed` carries that as a hypothesis).

## Model

| member | source | states |
|---|---|---|
| UseCart.IndexOf | src/hooks/useCart.tsx:45 | The result is the position of the first line with the id: that line has the id and no earlier one does. It is None exactly when no line has the id. |
| UseCart.Without | src/hooks/useCart.tsx:75 | The filtered cart is no longer than the cart. It holds exactly the lines of the cart whose id differs from the removed one. |
| UseCart.Find | src/hooks/useCart.tsx:45-48 | The loop stops at the first line with the id, or reports none, as `IndexOf` specifies. |
| UseCart.CartProvider.constructor | src/hooks/useCart.tsx:25-33 | The initial cart is the stored cart when the key holds one, else empty. Storage is left as found, and storage mirrors the cart. |
| UseCart.CartProvider.Save | src/hooks/useCart.tsx:61-62 | After `setCart` and the storage write, the in-memory cart and the stored cart both equal the new cart. |
| UseCart.CartProvider.AddProduct | src/hooks/useCart.tsx:35-66 | The outcome is `AddProductStep` of the old cart. On a write, both fields hold the new cart. On a refusal or failed lookup, both fields are unchanged. |
| UseCart.CartProvider.RemoveProduct | src/hooks/useCart.tsx:68-82 | The outcome is `RemoveProductStep` of the old cart. On a write, both fields hold the filtered cart. On the not-found error, both are unchanged. |
| UseCart.CartProvider.UpdateProductAmount | src/hooks/useCart.tsx:84-113 | The outcome is `UpdateProductAmountStep` of the old cart. On a write, both fields hold the new cart. On the silent return, refusal or failed lookup, both are unchanged. |
| CartProperties.AddProductWritesIff | src/hooks/useCart.tsx:37-62 | addProduct writes if and only if both lookups succeed and the stock exceeds the quantity already in the cart. It never returns silently. |
| CartProperties.AddProductLookupFailure | src/hooks/useCart.tsx:37-41 | A failed product or stock lookup gives the generic add error and no write. |
| CartProperties.AddProductOutOfStock | src/hooks/useCart.tsx:50-53 | With stock at or below the current quantity, the out-of-stock notification is raised and nothing is written. |
| CartProperties.AddProductAppendsNew | src/hooks/useCart.tsx:43-56 | For an id not in the cart with stock at least 1, exactly one line (the product, quantity 1) is appended at the end. Every earlier line is unchanged. |
| CartProperties.AddProductIncrementsExisting | src/hooks/useCart.tsx:45-58 | For an id in the cart below its stock, the first line with that id goes up by exactly 1, on any cart. The length, the ids and every other line are unchanged, so a cart with unique ids keeps them unique. |
| CartProperties.AddProductRepeated | src/hooks/useCart.tsx:43-59 | n successive adds of a product not in the cart, with stock at least n, leave one last line for it with quantity n and no duplicate. |
| CartProperties.AddToLastLine | src/hooks/useCart.tsx:45-58 | Adding the product that sits in the last line, below its stock, raises that line by one and changes nothing else. |
| CartProperties.AddProductPreservesWellFormed | src/hooks/useCart.tsx:43-62 | A write keeps ids unique and quantities positive when the catalog returns the requested id. The touched line then holds between 1 and the stock. |
| CartProperties.RemoveProductAbsent | src/hooks/useCart.tsx:70-73 | Removing an id not in the cart gives the removal error and no write. |
| CartProperties.RemoveProductPresent | src/hooks/useCart.tsx:75-78 | Removing a present id writes a shorter cart. It has no line for the id and keeps every line of another id. |
| CartProperties.WithoutLength | src/hooks/useCart.tsx:75 | Filtering an id that some line has makes the cart strictly shorter. |
| CartProperties.WithoutAppend | src/hooks/useCart.tsx:75 | Filtering distributes over concatenation, so the remaining lines keep their relative order. |
| CartProperties.WithoutAbsent | src/hooks/useCart.tsx:75 | Filtering an id that no line has returns the cart unchanged. |
| CartProperties.WithoutDropsLine | src/hooks/useCart.tsx:75 | A line with the id, placed between two parts, disappears under the filter, and the two filtered parts are joined in order. |
| CartProperties.RemoveProductExactlyOneLine | src/hooks/useCart.tsx:70-78 | In a cart with unique ids, removing a present id removes exactly its one line. The rest keep their order. |
| CartProperties.RemoveProductPreservesWellFormed | src/hooks/useCart.tsx:75-78 | A write by removeProduct keeps ids unique and quantities positive. |
| CartProperties.DropLineWellFormed | src/hooks/useCart.tsx:75-78 | Dropping one line from a cart with unique ids and positive quantities leaves both properties intact. |
| CartProperties.UpdateIgnoresNonPositive | src/hooks/useCart.tsx:89-91 | A non-positive amount returns silently, whatever the lookup would give. |
| CartProperties.UpdateLookupFailure | src/hooks/useCart.tsx:93-94 | A failed stock lookup for a positive amount gives the update error and no write. |
| CartProperties.UpdateOutOfStock | src/hooks/useCart.tsx:96-99 | An amount above the stock raises the out-of-stock notification and nothing is written. |
| CartProperties.UpdateWritesIff | src/hooks/useCart.tsx:89-109 | updateProductAmount writes if and only if the amount is positive, the lookup succeeds and the stock covers the amount. |
| CartProperties.UpdateSetsAmount | src/hooks/useCart.tsx:101-106 | An accepted amount becomes exactly the quantity of the first line for the id, on any cart. The length and every other line are unchanged. |
| CartProperties.UpdateAbsentWritesSameCart | src/hooks/useCart.tsx:101-109 | An accepted amount for an id not in the cart still writes, and what it writes is the unchanged cart. |
| CartProperties.UpdatePreservesWellFormed | src/hooks/useCart.tsx:101-109 | A write keeps ids unique and quantities positive. The line for the id, if any, holds at most the stock. |
| CartProperties.ExampleSession | src/hooks/useCart.tsx:35-113 | From an empty cart with 5 in stock: two adds give quantities 1 and 2, setting 5 gives 5, and a further add is refused with out-of-stock. |

## Left out

- The React context, provider, `useCart` hook and rendering (useCart.tsx lines 1-22 and 115-128): framework wiring. `setCart` is a field assignment.
- The HTTP lookups: the transport is not visible. Their results are `Option` parameters, and the interleaving of `async` operations is not modelled; each operation is atomic.
- `toast.error`: a user-interface effect, recorded only as the `Toast` tag of a `Fail` transition.
- `JSON.stringify`/`JSON.parse` and `localStorage` as a mechanism: storage is an already-decoded `Option<seq<Item>>`. An unset key or an empty string is `None`. A malformed stored value, on which the code throws during initialisation, is not modelled.
- UseCart.CartProvider.Save: storage writes are assumed to succeed. In the code, `localStorage.setItem` (useCart.tsx lines 62, 78 and 109) can throw, for example when the quota is exceeded or storage is disabled. It runs after `setCart` (lines 61, 77 and 108), so the catch then raises the failure toast with the in-memory cart already replaced and storage stale. The model does not capture that state, and `Valid()` (storage mirrors the cart) holds only under this assumption.
- Product price: a floating-point field that no cart rule reads. Title and image are carried but unused.
- Quantities are unbounded integers. JavaScript numbers (fractional amounts, precision limits) are not modelled.
- Aliasing of the shallow copy: the code raises a line's quantity on the same object that the previous state holds (useCart.tsx lines 58 and 105). Each operation here produces a new snapshot instead; the observable state after the write is the same.
- The product listing page (src/pages/Home/index.tsx): presentation only.
