# Admin order board and product forms, modelled in Dafny

This project models the stateful parts of a React admin single-page application
for a small shop backend:

- **The order board** (`src/pages/OrderList.tsx`). It holds the full order list
  and a `loading` flag. It loads the list, shows it in one section per status
  (PENDING, DELIVERING, DONE, CANCELLED, in that order, with empty sections left
  out), tints open orders' cards, and offers a status selector on PENDING and
  DELIVERING orders. A status change sends a PATCH and reloads the list when the
  PATCH succeeded.
- **The product form page** (`src/pages/ProductFormPage.tsx`). It holds the five
  text fields of a product, an image preview and URL, and the `uploading` and
  `loading` flags. It loads an existing product into form text, edits one field
  at a time, uploads an image of at most 500 KB, validates the required fields,
  and creates or updates the product.
- **The older product form component** (`src/components/ProductForm.tsx`). It has
  numeric prices and a multipart form body. It calls its parent's `onSuccess`
  after a successful save.

Each component is a class whose fields are the component's state. Each handler
is a method that takes the outcome of its network call as a parameter (success
with data, or failure). It returns the effects the source produces, in order:
requests sent, alerts shown, navigation, the `onSuccess` call. The render logic,
validation, payload building and colour tables are pure functions. Lemmas state
what the source promises about them.

Files:

- `js_values.dfy` (module `JsValues`): the JavaScript values involved.
  - `undefined`/`null` as `None`.
  - Truthiness of optional strings, and defaulting them to "" or null.
  - The plain decimal text `toString` gives an integer price, with a parser that reads it back. Prices are taken to be safe integers (below 2^53 in magnitude).
- `order_list.dfy` (module `OrderList`): the order board.
- `product_form_page.dfy` (module `ProductFormPage`): the product form page.
- `product_form.dfy` (module `ProductForm`): the older form component.

The model follows the code in two places where a reader might expect otherwise:

- A status change reloads the list only when the PATCH succeeded. The call to
  `fetchOrders` sits inside the `try`, after the awaited PATCH
  (`src/pages/OrderList.tsx:52-57`). It is not "reload regardless of the outcome".
- An order's status is a free string (`src/pages/OrderList.tsx:23`), not a closed
  enumeration. An order with another status shows in no section. A loaded list
  whose orders all have such statuses shows neither the "no orders" message nor
  any section (`BlankBoard`).

## Model

| member | source | states |
|---|---|---|
| `JsValues.OrEmpty` | src/pages/ProductFormPage.tsx:34-36 | a string defaulted to "" is "" exactly when the value is missing or empty, and the string itself otherwise |
| `JsValues.OrNull` | src/pages/ProductFormPage.tsx:100 | a string defaulted to null is null exactly when the value is missing or empty, and the string itself otherwise |
| `JsValues.NatToString` | src/pages/ProductFormPage.tsx:37-38 | the text of a non-negative integer is non-empty, all decimal digits, with no leading zero |
| `JsValues.IntToString` | src/components/ProductForm.tsx:42-43 | the text of an integer is never empty and starts with '-' exactly when the number is negative |
| `JsValues.IntToStringRoundTrip` | src/components/ProductForm.tsx:42-43 | reading a price's text back gives the price |
| `JsValues.IntToStringInjective` | src/pages/ProductFormPage.tsx:37-38 | different prices have different texts |
| `OrderList.GroupOrders` | src/pages/OrderList.tsx:48-49 | a bucket holds only orders of the list with the requested status, and every such order |
| `OrderList.Positions` | src/pages/OrderList.tsx:48-49 | the positions of the orders with a status, strictly increasing, covering every matching position |
| `OrderList.GroupIsSubsequence` | src/pages/OrderList.tsx:48-49 | a bucket is the list read at exactly the matching positions, so it keeps the list's relative order |
| `OrderList.GroupAppend` | src/pages/OrderList.tsx:48-49 | grouping a concatenation gives the two buckets concatenated |
| `OrderList.GroupCount` | src/pages/OrderList.tsx:48-49 | an order occurs in a bucket as often as in the list when its status matches, and never otherwise |
| `OrderList.SectionsForContents` | src/pages/OrderList.tsx:92-94 | each section holds the non-empty bucket of its status, and each non-empty bucket has a section |
| `OrderList.SectionsForOrdered` | src/pages/OrderList.tsx:92-94 | sections keep the order of the status list they are drawn from |
| `OrderList.SectionsInDisplayOrder` | src/pages/OrderList.tsx:92-107 | sections come in the order PENDING, DELIVERING, DONE, CANCELLED, hold their bucket, are never empty, and exist for every non-empty bucket |
| `OrderList.ExactlyOneSection` | src/pages/OrderList.tsx:92-93 | an order with a display status is in exactly one section, its own; an order with another status is in none |
| `OrderList.SectionsPartition` | src/pages/OrderList.tsx:92-109 | over all sections, each order is shown as many times as it occurs in the list if its status is a display status, and never otherwise |
| `OrderList.RenderBoardCases` | src/pages/OrderList.tsx:85-92 | only the loading message while loading; only the "no orders" message for an empty loaded list; sections otherwise |
| `OrderList.BlankBoard` | src/pages/OrderList.tsx:85-94 | a loaded board shows no section and no message exactly when the list is non-empty and no order has a display status |
| `OrderList.PendingAndDoneBoard` | src/pages/OrderList.tsx:92-109 | one pending and one done order give a PENDING section then a DONE section, and nothing for the other two statuses |
| `OrderList.ControlFor` | src/pages/OrderList.tsx:125-142 | a selector exactly for PENDING and DELIVERING orders, set to the order's status and offering the four statuses; plain text otherwise |
| `OrderList.ControlAllowsAnyMove` | src/pages/OrderList.tsx:125-141 | the selector offers backward moves (DELIVERING to PENDING) and both terminal statuses; DONE and CANCELLED orders get no selector |
| `OrderList.TintMarksOpenOrders` | src/pages/OrderList.tsx:60-72 | a card is tinted (not white) exactly when its order has a selector, and the two tints differ |
| `OrderList.HeaderColorsDistinct` | src/pages/OrderList.tsx:74-79 | the header colour table covers exactly the four display statuses, with four different colours |
| `OrderList.OrderBoard.constructor` | src/pages/OrderList.tsx:30-31 | the board starts with no orders and loading, so it shows the loading message |
| `OrderList.OrderBoard.FetchOrders` | src/pages/OrderList.tsx:33-42 | one GET; on success the list is replaced by the response, on failure it is kept; loading is false afterwards, so the loading message is gone |
| `OrderList.OrderBoard.HandleStatusChange` | src/pages/OrderList.tsx:51-58 | one PATCH for the order and status, then a reload only if the PATCH succeeded; after a failed PATCH the list and loading are unchanged; loading never turns back on, so the loading message never comes back |
| `ProductFormPage.With` | src/pages/ProductFormPage.tsx:52-55 | the named field takes the new text and every other field keeps its own |
| `ProductFormPage.EditLaws` | src/pages/ProductFormPage.tsx:52-55 | retyping a field's current text changes nothing; the later of two edits to one field wins |
| `ProductFormPage.Normalise` | src/pages/ProductFormPage.tsx:33-39 | missing or empty code, name and description become ""; a price becomes "" only when it is missing |
| `ProductFormPage.NormalisedPriceRoundTrip` | src/pages/ProductFormPage.tsx:37-38 | a fetched price's form text reads back as the fetched number, so 0 becomes "0" |
| `ProductFormPage.RequiredFields` | src/pages/ProductFormPage.tsx:91-94 | description and sale price never affect validation; an empty code, name or original price always fails it |
| `ProductFormPage.LoadedProductValid` | src/pages/ProductFormPage.tsx:33-39 | a loaded product with a code, a name and any original price, zero included, passes validation |
| `ProductFormPage.BuildPayload` | src/pages/ProductFormPage.tsx:98-101 | the payload's image URL is null exactly when no URL is held, and the held URL otherwise |
| `ProductFormPage.PayloadCarriesFields` | src/pages/ProductFormPage.tsx:98-101 | the payload carries the five form fields unchanged |
| `ProductFormPage.ButtonStates` | src/pages/ProductFormPage.tsx:250-272 | the button is disabled exactly while it shows a busy caption; "Saving..." wins over "Uploading..."; an idle button says Update exactly when the route has an id |
| `ProductFormPage.TitleNamesRequest` | src/pages/ProductFormPage.tsx:129-131 | the heading and the idle button say "Update Product" exactly when a save is a PUT; without an id the heading says "Add New Product" while the button says "Add Product" |
| `ProductFormPage.SaveRequest` | src/pages/ProductFormPage.tsx:103-107 | a PUT to the route's product exactly when an id is present, otherwise a POST, both with the payload |
| `ProductFormPage.SaveFailedMessage` | src/pages/ProductFormPage.tsx:110-112 | the failure alert is the server's message when there is one, otherwise a non-empty default |
| `ProductFormPage.ProductFormPage.constructor` | src/pages/ProductFormPage.tsx:14-25 | empty fields, no preview or image URL, not loading, not uploading; the button is enabled and names the action the route selects |
| `ProductFormPage.ProductFormPage.LoadProduct` | src/pages/ProductFormPage.tsx:27-50 | without an id nothing happens; with one, a GET whose success puts the normalised product in the form, and sets preview and URL only for a truthy image; a failure alerts and changes nothing |
| `ProductFormPage.ProductFormPage.HandleChange` | src/pages/ProductFormPage.tsx:52-55 | only the named field of the product changes |
| `ProductFormPage.ProductFormPage.HandleImageChange` | src/pages/ProductFormPage.tsx:57-88 | no file, or one over 500*1024 bytes, leaves preview, URL and uploading unchanged; otherwise preview shows the file, one upload is sent, the URL changes only on success, and uploading ends false, so the button no longer says "Uploading..." |
| `ProductFormPage.ProductFormPage.HandleSubmit` | src/pages/ProductFormPage.tsx:90-116 | an empty code, name or original price only alerts, with loading unchanged; otherwise one save request with the payload, navigation only after success, an alert after failure, and loading false afterwards, so the button no longer says "Saving..." |
| `ProductFormPage.FailedUploadKeepsOldImage` | src/pages/ProductFormPage.tsx:67-87 | after a failed upload the preview shows the new file while the URL to be saved is still the old one |
| `ProductForm.FormDataKeys` | src/components/ProductForm.tsx:39-44 | the body always has name, code, originalPrice and salePrice, in that order, and an image entry exactly when a file is selected |
| `ProductForm.FormDataRoundTrip` | src/components/ProductForm.tsx:39-44 | the body's values give back the name, the code, both prices and the selected file |
| `ProductForm.ZeroPriceOnlyRejectedHere` | src/components/ProductForm.tsx:34-37 | an original price of 0 fails this form's validation, while the page form accepts the "0" it loads for such a product |
| `ProductForm.SaveRequest` | src/components/ProductForm.tsx:49-57 | a PUT to the product exactly when a product id is present, otherwise a POST, both with the form body |
| `ProductForm.SubmitTextNamesRequest` | src/components/ProductForm.tsx:82 | the button says "Update Product" exactly when a save is a PUT, and matches the page form's idle button for the same id |
| `ProductForm.ProductForm.constructor` | src/components/ProductForm.tsx:10-14 | empty name and code, zero prices, no file |
| `ProductForm.ProductForm.LoadProduct` | src/components/ProductForm.tsx:16-31 | with a product id, one GET whose success copies name, code and both prices into the form; a failure changes nothing |
| `ProductForm.ProductForm.SetCode` | src/components/ProductForm.tsx:67 | the code input sets the code |
| `ProductForm.ProductForm.SetName` | src/components/ProductForm.tsx:68 | the name input sets the name |
| `ProductForm.ProductForm.SetOriginalPrice` | src/components/ProductForm.tsx:69-74 | the original price input sets the original price |
| `ProductForm.ProductForm.SetSalePrice` | src/components/ProductForm.tsx:75-80 | the sale price input sets the sale price |
| `ProductForm.ProductForm.SelectImage` | src/components/ProductForm.tsx:81 | the file input sets the selected file |
| `ProductForm.ProductForm.HandleSubmit` | src/components/ProductForm.tsx:33-63 | an empty name or code, or an original price of 0, only alerts; otherwise one save request carrying the assembled body, then `onSuccess` after a success or an alert after a failure, never both (given that `onSuccess` returns normally) |

## Left out

- `src/pages/Dashboard.tsx`, `src/pages/LoginPage.tsx`, `src/App.tsx` and `src/routes/PrivateRoute.tsx` are not part of this model. They are request plumbing, routing and a token-presence redirect.
- `src/api/api.ts` is not part of this model. That covers its base address, the bearer-token header and the token read from local storage. Requests are named by method and path only.
- The HTTP and image-host calls themselves. Each one is an outcome parameter of the handler that makes it.
- `console.error` diagnostics are not modelled. Alerts are effects carrying their fixed text.
- `OrderList.OrderBoard.HandleStatusChange`: the reload after a successful PATCH is not awaited in the source. The model runs it to completion inside the handler, and overlapping status changes or reloads are not interleaved. Interleaving is concurrency, which this model does not cover.
- `ProductFormPage.ProductFormPage.HandleImageChange` and `ProductFormPage.ProductFormPage.HandleSubmit`: `uploading` and `loading` are true while the request is in flight. Each handler is one atomic step here, so the contracts state only the state after the attempt.
- `ProductFormPage.ProductFormPage.HandleChange`: the source writes the field named by the input's `name` attribute. The model covers the five inputs the page renders. A key with any other name is not modelled.
- `JsValues.IntToString`: prices are taken to be below 2^53 in magnitude. JavaScript writes a number of magnitude 10^21 or more in exponent form ("1e+21"), and a number beyond 2^53 arrives already rounded. Neither is modelled, so `JsValues.IntToStringRoundTrip` holds for the model's prices, not for those.
- `ProductForm.ProductForm.HandleSubmit`: the parent's `onSuccess` is taken to return normally. The source calls it inside the same `try`, so a throwing `onSuccess` would also raise the "Failed to save product" alert. No component in the repository mounts this form, so nothing fixes what the callback does.
- Prices are integers. Fractional or non-finite numbers, `Number(...)` parsing of the price inputs, and `NaN` (also falsy in the older form's check) are left out. They are floating-point behaviour.
- `OrderList.OrderBoard.FetchOrders`: a success response without an `orders` array is not modelled.
- `ProductFormPage.ProductFormPage.HandleImageChange`: an upload success without `secure_url` is not modelled.
- `ProductForm.ProductForm.LoadProduct`: fetched fields that are missing are not modelled.
- Date formatting of `createdAt`, JSX layout and inline styles are left out. The status-to-colour mapping is the exception and is modelled.
- `URL.createObjectURL` is represented by the `objectUrl` of the chosen file.
- The selector fires only when a different option is picked. The model's status change takes any order id and status.
- `ProductFormPage.ProductFormPage.LoadProduct` runs in the source whenever the route's `id` changes. The model treats the id as fixed for the life of the page.
