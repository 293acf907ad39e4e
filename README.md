# Miranda Costa storefront — a Dafny model of its core

This project models the core of the Miranda Costa storefront. That is a
React shop on a Supabase database, with Mercado Pago for payments and
Melhor Envio for shipping labels. The model covers:

- **the cart ledger** (`useCart`): the stock an add or an update is
  checked against, the `cart_items` table with its add, update, remove
  and clear mutations, and the count and total read from it
  (`cart.dfy`, module `Cart`);
- **the admin save logic** (`Admin.tsx`): the variant editor, the
  cleaning of its rows into stored variants, the sizes, colours and stock
  derived from them, the product write with the wholesale replacement of
  its variants, and the coupon, category and hero forms (`admin.dfy`,
  module `AdminCatalog`);
- **the image helpers** (`image-upload.ts`): the file checks, the object
  name, the public URL and the path recovered from it on deletion
  (`image_upload.dfy`, module `ImageUpload`);
- **the three edge functions**:
  - `create-payment`: request checks, the payment preference and the
    gateway answer (`create_payment.dfy`);
  - `payment-webhook`: topic, status and the order overwrite
    (`webhook.dfy`);
  - `generate-shipping-label`: the package, the cart request and the
    five-call provider sequence (`shipping.dfy`);
- **the shop pages**:
  - `Loja.tsx`: filters, URL parameters, listing, stock label and the
    card's cart button (`storefront.dfy`);
  - `Produto.tsx`: picks, the add button and the add handler
    (`product_page.dfy`);
  - `Novidades.tsx`: badges (`new_arrivals.dfy`).

`common.dfy` holds the string helpers the pages share:

- JavaScript's `trim`, `split` and `join` on one separator;
- first-occurrence de-duplication (`Array.from(new Set(...))`);
- `Option` and `Result`.

State the source changes in place is modelled imperatively:

- the cart table, the admin's variant editor and product store, the
  product page's picks, and the `orders` table of the two edge functions
  that write to it are classes;
- their handlers are methods proved against specification functions;
- everything that only computes a value is a function with lemmas.

Database tables are sequences or maps held in those classes. Every call
to the database, storage or a payment or shipping provider becomes a
parameter that stands for its answer (success or failure, and the body it
returns). Prices are integer cents throughout.

In these places the model follows the code where a reader might expect
otherwise:

- **Variant matching is exact.** An add or update matches a variant only
  when both its size and its colour equal the selection, with null equal
  only to null. A product with variants never falls back to its flat
  stock.
- **A paid order can be overwritten.** The webhook overwrites the
  payment status on every notification. There is no guard that keeps a
  paid order paid (`PaidIsNotFinal`).
- **The shipping function keeps no saga log.** Each step that fails
  returns an error; only a tracking code is written back, and the order
  is marked `shipped` only then.
- **An inactive product is refused outright.** Adding it gives an
  explicit error, before any stock is looked at.
- **`updateQuantity` checks stock before deleting.** A quantity of zero
  or less deletes the line only after the line's stock has been resolved
  and found positive.

## Model

| member | source | states |
|---|---|---|
| Cart.FindVariant | src/hooks/useCart.ts:110-116 | the index found is the first variant whose size and colour both equal the selection, null only matching null; none exactly when no variant matches |
| Cart.Resolve | src/hooks/useCart.ts:118-128 | the only way resolution fails is the invalid-combination error |
| Cart.ResolveFlat | src/hooks/useCart.ts:118-124 | a product without variants resolves to its flat stock, a non-number counting as 0, whatever the selection |
| Cart.ResolveVariant | src/hooks/useCart.ts:110-128 | a product with variants resolves if and only if some variant matches exactly, and then to the stock of the first matching variant, the one `find` returns |
| Cart.CheckAdd | src/hooks/useCart.ts:65-132 | the checks run in order: no user → not logged in; an unknown product → not found; an inactive product → inactive; a missing required size or colour → that error; no matching variant → invalid combination; no stock → out of stock; success exactly when every check passes, with a positive available stock that is what the selection resolves to, and an empty size or colour stored as null |
| Cart.ResolveLine | src/hooks/useCart.ts:183-214 | an existing line re-resolves to its product's stock; it fails only with an invalid combination, and a line whose product is gone has no stock |
| Cart.AddNeedsSize | src/hooks/useCart.ts:96-100 | an add without a size fails with "size required" when the product lists sizes or any variant has a size |
| Cart.AddNeedsColor | src/hooks/useCart.ts:101-105 | with the size settled, an add without a colour fails with "colour required" when the product needs one |
| Cart.Find | src/hooks/useCart.ts:134-144 | the line found is the first one the filter selects; none exactly when no line is selected |
| Cart.Keep | src/hooks/useCart.ts:31-63 | the lines a query returns are exactly the table's lines it selects |
| Cart.Drop | src/hooks/useCart.ts:252-278 | a delete leaves exactly the lines it does not select |
| Cart.DropUpdateSelected | src/hooks/useCart.ts:221-242 | overwriting a line that a delete would remove anyway does not change what that delete leaves |
| Cart.CountAppend | src/hooks/useCart.ts:281 | `cartCount` is additive over any split of the lines |
| Cart.CountKeepUpdate | src/hooks/useCart.ts:238-242 | setting one line's quantity moves the count of the lines a filter selects by exactly the change, when the line is selected, and not at all otherwise |
| Cart.DropKeepsUnique | src/hooks/useCart.ts:252-278 | a delete keeps at most one line per key and per id |
| Cart.DropIdempotent | src/hooks/useCart.ts:252-278 | removing or clearing twice leaves what doing it once leaves |
| Cart.Count | src/hooks/useCart.ts:281 | `cartCount`: when every line holds a positive quantity, the count is at least the number of lines |
| Cart.Total | src/hooks/useCart.ts:280 | `cartTotal`: lines whose products are all gone add up to 0 |
| Cart.CartTable.CartCount | src/hooks/useCart.ts:31-34 | without a signed-in user the cart query returns nothing, so the count is 0 |
| Cart.CartTable.CartTotal | src/hooks/useCart.ts:31-34 | without a signed-in user the cart query returns nothing, so the total is 0 |
| Cart.KeepAfterDrop | src/hooks/useCart.ts:266-278 | after a delete by a filter, a query by the same filter returns nothing |
| Cart.TotalNonNegative | src/hooks/useCart.ts:280 | with non-negative quantities and prices, `cartTotal` is never negative |
| Cart.TotalAppend | src/hooks/useCart.ts:280 | `cartTotal` is additive over any split of the lines |
| Cart.TotalOne | src/hooks/useCart.ts:280 | one line adds its live price times its quantity, so with the additivity lemma every total is the sum of price times quantity |
| Cart.FindUpdate | src/hooks/useCart.ts:151-157 | overwriting a line with one the filter treats the same way does not move the first match |
| Cart.UpdateKeepsUnique | src/hooks/useCart.ts:151-157 | overwriting a line with one of the same key and id keeps keys and ids unique |
| Cart.MergeLine | src/hooks/useCart.ts:146-157 | merging into the existing line keeps keys and ids unique and lines within stock and positive; that line stays the first match, holds the sum and the other lines are untouched |
| Cart.MergeCount | src/hooks/useCart.ts:151-157 | a merge raises the user's count by exactly the quantity added |
| Cart.InsertKeepsUnique | src/hooks/useCart.ts:158-168 | inserting a line with a fresh id under a key not yet present keeps keys and ids unique |
| Cart.InsertLine | src/hooks/useCart.ts:158-168 | an insert keeps lines within stock and positive; the new line becomes the match for its key with its quantity, and the other lines are untouched |
| Cart.InsertCount | src/hooks/useCart.ts:158-168 | an insert raises the user's count by exactly the new line's quantity |
| Cart.AddLine | src/hooks/useCart.ts:146-168 | an add keeps the number of lines when its key is present and adds one line otherwise; a new line goes at the end with the next id and the quantity added, the earlier lines untouched |
| Cart.AddLineMerges | src/hooks/useCart.ts:151-157 | when a line with the same key exists, an add merges into it rather than inserting |
| Cart.AddLineEffect | src/hooks/useCart.ts:146-168 | an allowed add keeps keys and ids unique and lines within stock and positive; the key then holds the old quantity plus the added one, other keys are untouched and the user's count rises by the quantity |
| Cart.CartTable.AddToCart | src/hooks/useCart.ts:65-169 | a failed check is returned unchanged; exceeding the available stock is refused with that stock; otherwise the table becomes the merge or insert of the add; the table and the id counter are unchanged on every failure and the user's count rises by the quantity on success |
| Cart.CartTable.UpdateQuantity | src/hooks/useCart.ts:179-243 | no user → not logged in; unknown id → not found; then, by the line's re-resolved stock: no stock → out of stock; quantity ≤ 0 → line deleted; above the stock → refused; else the quantity is overwritten; uniqueness and the stock bound are kept |
| Cart.CartTable.RemoveFromCart | src/hooks/useCart.ts:252-264 | exactly the line with that id is deleted, keys stay unique |
| Cart.CartTable.ClearCart | src/hooks/useCart.ts:266-278 | every line of the signed-in user is deleted and nothing else; without a user nothing changes; afterwards the user's cart is empty with count 0 |
| AdminCatalog.CleanVariants | src/pages/Admin.tsx:245-252 | every cleaned variant passes the filter (a colour or a size, stock ≥ 0) |
| AdminCatalog.KeptRowsSurvive | src/pages/Admin.tsx:245-252 | every row that passes the filter, cleaned, is among the cleaned variants |
| AdminCatalog.CleanVariantsAppend | src/pages/Admin.tsx:245-252 | cleaning works row by row: it distributes over concatenation |
| AdminCatalog.CleanVariantsSingle | src/pages/Admin.tsx:245-252 | one row is kept, cleaned, exactly when it passes the filter |
| AdminCatalog.CleanVariantsFromRows | src/pages/Admin.tsx:245-252 | every cleaned variant is the cleaning of some row |
| AdminCatalog.CleanedAreTrimmed | src/pages/Admin.tsx:247-249 | every cleaned colour and size has no surrounding white space |
| AdminCatalog.NonEmptyStrings | src/pages/Admin.tsx:256-262 | `.filter(Boolean)` keeps exactly the non-empty strings |
| AdminCatalog.SizesArrayExact | src/pages/Admin.tsx:256-258 | the sizes list holds each non-empty size of the cleaned variants exactly once, and nothing else |
| AdminCatalog.ColorsArrayExact | src/pages/Admin.tsx:260-262 | the colours list holds each non-empty colour of the cleaned variants exactly once, and nothing else |
| AdminCatalog.SizesArrayOrder | src/pages/Admin.tsx:256-258 | the sizes are listed in the order of their first occurrence |
| AdminCatalog.ColorsArrayOrder | src/pages/Admin.tsx:260-262 | the colours are listed in the order of their first occurrence |
| AdminCatalog.TotalStockNonNegative | src/pages/Admin.tsx:264-266 | the stored stock of cleaned variants is never negative |
| AdminCatalog.VariantTotalMatchesStored | src/pages/Admin.tsx:238-266 | when every row passes the filter, the editor's running total is the stock that gets stored |
| AdminCatalog.VariantTotalCountsDroppedRows | src/pages/Admin.tsx:238-266 | a row the filter drops (negative stock) still counts in the editor's total, which then falls below the stored stock |
| AdminCatalog.BuildProductData | src/pages/Admin.tsx:254-281 | without variants the stock is 0 with no sizes or colours; with variants the stock is their sum; sizes and colours come from the variants; an empty original price is null and a non-empty one is the parsed value; name, description, price, category, images and the active flag are copied from the form |
| AdminCatalog.Payload | src/pages/Admin.tsx:300-305 | one record per cleaned variant, for this product, with its stock, and an empty colour or size stored as null |
| AdminCatalog.WithoutProduct | src/pages/Admin.tsx:298 | the delete by product id leaves exactly the other products' variants |
| AdminCatalog.VariantsOf | src/pages/Admin.tsx:640-649 | a product reads back exactly its own variant rows |
| AdminCatalog.VariantsOfAppend | src/pages/Admin.tsx:298-307 | reading a product's variants distributes over the rows before and after an insert |
| AdminCatalog.VariantsOfAll | src/pages/Admin.tsx:300-307 | a payload built for one product reads back whole for it |
| AdminCatalog.ReplaceVariants | src/pages/Admin.tsx:297-310 | after the delete and the insert, the product reads back exactly the payload, and every other product reads back what it had |
| AdminCatalog.NoneOfProduct | src/pages/Admin.tsx:298 | after the delete, nothing is left under that product |
| AdminCatalog.WithoutOtherProduct | src/pages/Admin.tsx:298 | deleting one product's variants leaves every other product's variants as they were |
| AdminCatalog.PayloadMatchesCleaned | src/pages/Admin.tsx:300-305 | a stored colour or size is null exactly when the cleaned one is empty, and never both |
| AdminCatalog.ProductCategories | src/pages/Admin.tsx:211-213 | the loaded category names, or the seven defaults while none are loaded; never empty |
| AdminCatalog.SaveCategory | src/pages/Admin.tsx:466-478 | refused exactly when the name is empty; empty image and link become null; a given display order is stored, a missing one becomes 0; the rest is copied |
| AdminCatalog.UpperAscii | src/pages/Admin.tsx:523-533 | upper-casing keeps the length, maps each lower-case ASCII letter to its capital, leaves every other character, and leaves no lower-case letter |
| AdminCatalog.UpperAsciiIdempotent | src/pages/Admin.tsx:523-533 | upper-casing a stored code again changes nothing |
| AdminCatalog.SaveCoupon | src/pages/Admin.tsx:523-533 | refused exactly when the code is empty; the code is stored upper-cased; the type and the active flag are copied; an unparseable value is 0; an empty minimum is null and a non-empty one is its parsed value; the expiry is null exactly when empty and otherwise the given date |
| AdminCatalog.SaveHero | src/pages/Admin.tsx:416-453 | refused exactly when there is no image; the active hero row is updated when there is one, else a row is inserted at display order 0, with the form's fields |
| AdminCatalog.VariantEditor.Load | src/pages/Admin.tsx:640-649 | one row per stored variant, null colour or size shown as empty, stock as its text |
| AdminCatalog.VariantEditor.AddRow | src/pages/Admin.tsx:895 | an empty row is appended and the running total is unchanged |
| AdminCatalog.VariantEditor.SetColor | src/pages/Admin.tsx:928-932 | only that row's colour changes; the total is unchanged; a missing index changes nothing |
| AdminCatalog.VariantEditor.SetSize | src/pages/Admin.tsx:942-946 | only that row's size changes; the total is unchanged; a missing index changes nothing |
| AdminCatalog.VariantEditor.SetStock | src/pages/Admin.tsx:957-961 | only that row's stock changes, and the total moves by the change in its parsed stock |
| AdminCatalog.VariantEditor.RemoveRow | src/pages/Admin.tsx:970 | the row is removed, the others keep their order, and the total drops by its parsed stock |
| AdminCatalog.VariantEditor.Clear | src/pages/Admin.tsx:904 | no rows and a total of 0 |
| AdminCatalog.VariantTotalConcat | src/pages/Admin.tsx:238-241 | the running total is additive over the rows |
| AdminCatalog.VariantTotalAppend | src/pages/Admin.tsx:238-241 | appending a row adds its parsed stock to the total |
| AdminCatalog.VariantTotalUpdate | src/pages/Admin.tsx:238-241 | replacing one row moves the total by the change in that row's parsed stock |
| AdminCatalog.ProductStore.WriteProduct | src/pages/Admin.tsx:283-295 | editing updates the row with that id if it exists; otherwise a row is inserted under a fresh id; the variants are untouched |
| AdminCatalog.ProductStore.WriteVariants | src/pages/Admin.tsx:297-310 | the product's variants are replaced by the payload; a failed insert leaves it with none; the success flag says which |
| AdminCatalog.ProductStore.SaveProduct | src/pages/Admin.tsx:243-310 | a failed product write changes nothing; otherwise the row is written from the cleaned variants and those variants replace the product's old ones, unless their insert fails |
| ImageUpload.CheckFile | src/lib/image-upload.ts:13-21 | accepted exactly when the type starts with `image/` and the size is at most 5 MiB; the type check's message comes first |
| ImageUpload.SizeLimitInclusive | src/lib/image-upload.ts:18-21 | exactly 5 MiB is accepted, one byte more is refused as too large |
| ImageUpload.Extension | src/lib/image-upload.ts:24-25 | the extension is a dot-free tail of the file name |
| ImageUpload.ExtensionAfterLastDot | src/lib/image-upload.ts:24-25 | in a name with a dot, the extension is everything after the last dot |
| ImageUpload.ExtensionWithoutDot | src/lib/image-upload.ts:24-25 | a name without a dot is its own extension |
| ImageUpload.FileName | src/lib/image-upload.ts:24-27 | the object name starts with the folder and `/` and ends with `.` and the file's extension |
| ImageUpload.UploadImage | src/lib/image-upload.ts:30-48 | a file failing a check is refused with that check's message; otherwise a storage failure is reported, or the object is stored under its generated name and its public URL returned |
| ImageUpload.ExtractPath | src/lib/image-upload.ts:60-68 | as written: no path exactly when no URL segment is `products`; otherwise a tail of the URL that starts with `products` |
| ImageUpload.PublicUrlSegments | src/lib/image-upload.ts:44-46 | a public URL's segments are the storage prefix's, the bucket, then the object path's |
| ImageUpload.PathsFromSegments | src/lib/image-upload.ts:60-68 | both path computations start at the first `products` segment: the written one includes it, the corrected one starts after it |
| ImageUpload.ExtractPathKeepsBucket | src/lib/image-upload.ts:60-68 | as written, on a stored object's public URL the path keeps the bucket segment in front of the object path |
| ImageUpload.UploadedImageDeletionMisses | src/lib/image-upload.ts:60-68 | as written, deleting the image stored as `products/1-abc.jpg` names `products/products/1-abc.jpg` |
| ImageUpload.ObjectPath | src/lib/image-upload.ts:60-68 | corrected: no path exactly when no segment is `products`; otherwise the segments after it |
| ImageUpload.ObjectPathIsSuffix | src/lib/image-upload.ts:60-68 | the corrected path is a tail of the URL |
| ImageUpload.ObjectPathOfPublicUrl | src/lib/image-upload.ts:60-68 | the corrected path of an object's public URL is that object's path |
| ImageUpload.DeleteImage | src/lib/image-upload.ts:60-80 | as written: the path removed is the one computed from the `products` segment on; without that segment storage is not called and the answer is false; otherwise the answer is whether storage succeeded |
| ImageUpload.UploadThenDeleteAsWritten | src/lib/image-upload.ts:30-80 | as written, deleting an uploaded image asks storage for `products/` followed by its stored path, not the stored path itself |
| ImageUpload.DeleteImageCorrected | src/lib/image-upload.ts:60-80 | corrected: the same checks and answers, removing the object path after the first `products` segment |
| ImageUpload.UploadThenDelete | src/lib/image-upload.ts:30-80 | with the corrected deletion, an uploaded image is removed under the name it was stored with and the answer is true |
| CreatePayment.Or | supabase/functions/create-payment/index.ts:79-91 | `a \|\| b`: a non-empty `a` wins, otherwise `b` as it is |
| CreatePayment.FindInvalid | supabase/functions/create-payment/index.ts:37-52 | the index found is the first invalid item; none exactly when every item is valid |
| CreatePayment.Validate | supabase/functions/create-payment/index.ts:30-52 | missing fields are reported first; an invalid item is reported only when the fields are there; nothing is reported exactly when both checks pass |
| CreatePayment.NonNumericQuantityAccepted | supabase/functions/create-payment/index.ts:37-52 | a quantity sent as non-numeric text passes the item check |
| CreatePayment.FirstNonEmpty | supabase/functions/create-payment/index.ts:54-64 | the first non-empty candidate, or "" exactly when all are empty |
| CreatePayment.BaseUrl | supabase/functions/create-payment/index.ts:54-64 | the base URL is never empty |
| CreatePayment.BaseUrlPrefersSuccessUrl | supabase/functions/create-payment/index.ts:54-64 | a success URL with text after trimming is the base URL, whatever else is configured |
| CreatePayment.BaseUrlFallsBackToSite | supabase/functions/create-payment/index.ts:54-64 | with no usable return URL the site URL wins over both origins |
| CreatePayment.BaseUrlLastResort | supabase/functions/create-payment/index.ts:54-64 | with nothing configured the fixed fallback is used |
| CreatePayment.ReturnUrl | supabase/functions/create-payment/index.ts:83-87 | the trimmed URL when it has text, otherwise the order page under the base URL |
| CreatePayment.MapItem | supabase/functions/create-payment/index.ts:69-78 | the preference item has the currency BRL, the id `id \|\| product_name`, and keeps the quantity, picture and parsed price |
| CreatePayment.MapItems | supabase/functions/create-payment/index.ts:69-78 | one preference item per request item, in order |
| CreatePayment.MappedItemText | supabase/functions/create-payment/index.ts:69-78 | a checked item keeps its title and price; its description is its own, else its title |
| CreatePayment.MappedItemDefaultDescription | supabase/functions/create-payment/index.ts:69-78 | an item with neither description nor title is described as "Produto" |
| CreatePayment.BuildPreference | supabase/functions/create-payment/index.ts:66-92 | the items are the mapped items; the reference, auto-return and descriptor are set; the payer's email defaults to "" and the name to "Cliente"; with return URLs given, each of the three is its own trimmed URL or, separately, the order page under the base URL |
| CreatePayment.DefaultReturnUrls | supabase/functions/create-payment/index.ts:83-91 | without return URLs, all three point at the order page under the base URL |
| CreatePayment.NotificationUrlChoice | supabase/functions/create-payment/index.ts:90-91 | a notification URL in the request is used as it is; without one the base URL is notified |
| CreatePayment.ThrownMessage | supabase/functions/create-payment/index.ts:129-134 | a 500 answer carries the exception's message when it has one, and is never empty |
| CreatePayment.CreatePreference | supabase/functions/create-payment/index.ts:14-135 | no token → 400 before anything else; an unreadable body → 500 with the parser's message; a failed check → 400 with its message; a preference is sent exactly when all of them pass, and it is the preference built from the request's items, payer, reference and return URLs; a gateway error relays its status with its message or a fixed one; an exception during the call → 500 with its message; a payment id is returned exactly when the gateway succeeded |
| CreatePayment.SentItemsChecked | supabase/functions/create-payment/index.ts:37-78 | every item sent to the gateway passed the check and is that item mapped, in BRL |
| PaymentWebhook.Topic | supabase/functions/payment-webhook/index.ts:19 | a non-empty `topic` wins, otherwise `type` |
| PaymentWebhook.LastStatus | supabase/functions/payment-webhook/index.ts:95-98 | the status of the last payment of the list; none for an absent or empty list |
| PaymentWebhook.Normalize | supabase/functions/payment-webhook/index.ts:89-99 | a reference is extracted exactly for a handled topic with a truthy reference; a payment notification then carries its own status and a merchant order its last payment's; without a reference there is no status either |
| PaymentWebhook.ChangeFor | supabase/functions/payment-webhook/index.ts:112-181 | approved → paid, pending → pending, rejected or cancelled → failed, each if and only if |
| PaymentWebhook.Decide | supabase/functions/payment-webhook/index.ts:19-195 | missing database credentials → 500; a handled topic without a gateway token → 500; a failed fetch → 400; an unreadable body → 500; early answers are 200, 400 or 500; a write needs full configuration, a handled topic, a fetched body and its non-empty reference as order id |
| PaymentWebhook.WriteCode | supabase/functions/payment-webhook/index.ts:112-175 | only a failed `approved` write answers 400; every other write answers 200 |
| PaymentWebhook.Transition | supabase/functions/payment-webhook/index.ts:112-175 | approved sets paid and confirmed; pending and failed set only the payment status; the timestamp is stamped and the other columns kept |
| PaymentWebhook.Effect | supabase/functions/payment-webhook/index.ts:101-181 | a write that the database accepts replaces the named order by the transition of that write's own change; any other decision, a database error or an unknown id leaves the table unchanged; no order is added or removed |
| PaymentWebhook.UnknownTopicIgnored | supabase/functions/payment-webhook/index.ts:184-189 | any other topic is acknowledged with 200 |
| PaymentWebhook.NoReferenceIgnored | supabase/functions/payment-webhook/index.ts:101-107 | a body without a truthy reference is acknowledged with 200 |
| PaymentWebhook.EmptyMerchantOrderIgnored | supabase/functions/payment-webhook/index.ts:63-107 | a merchant order without payments is acknowledged with 200 and writes nothing |
| PaymentWebhook.MerchantOrderUsesLastPayment | supabase/functions/payment-webhook/index.ts:95-98 | a merchant order's write is decided by its last payment's status alone |
| PaymentWebhook.UnknownStatusIgnored | supabase/functions/payment-webhook/index.ts:178-181 | an unknown status is acknowledged with 200 |
| PaymentWebhook.PaymentUsesOwnStatus | supabase/functions/payment-webhook/index.ts:35-176 | a configured payment notification with a reference and a known status writes that status's change to that order |
| PaymentWebhook.WriteIff | supabase/functions/payment-webhook/index.ts:19-181 | a write is decided exactly when configured, for a handled topic, with a fetched body, a truthy reference and a status that maps to a change |
| PaymentWebhook.RejectedNonApprovalIsAcknowledged | supabase/functions/payment-webhook/index.ts:136-175 | a pending or failed write answers 200 even when the database refuses it, and then leaves the table as it was |
| PaymentWebhook.TransitionOverwrites | supabase/functions/payment-webhook/index.ts:112-175 | the statuses a write leaves do not depend on the row's previous statuses |
| PaymentWebhook.TransitionIdempotent | supabase/functions/payment-webhook/index.ts:112-175 | applying the same overwrite twice is applying it once, apart from the timestamp |
| PaymentWebhook.PaidIsNotFinal | supabase/functions/payment-webhook/index.ts:136-175 | a later pending or failure notification overwrites a paid order |
| PaymentWebhook.EffectIdempotent | supabase/functions/payment-webhook/index.ts:101-181 | a redelivered notification leaves the table as one delivery does, apart from the timestamp |
| PaymentWebhook.ApprovedFrame | supabase/functions/payment-webhook/index.ts:112-135 | an `approved` write sets that row to paid and confirmed with the new timestamp and keeps its other columns |
| PaymentWebhook.NotifiedStatusReachesOrder | supabase/functions/payment-webhook/index.ts:112-175 | after a successful write the named order holds paid and confirmed for approved, pending for pending, failed for rejected or cancelled, the last two keeping the order status |
| PaymentWebhook.OrderTable.Update | supabase/functions/payment-webhook/index.ts:112-175 | the row with that id is overwritten by the change; a missing id changes nothing |
| PaymentWebhook.OrderTable.Handle | supabase/functions/payment-webhook/index.ts:17-195 | the table becomes the effect of the decision, so the named order receives the transition of the notified status's change; the answer is the decision's code or the write's code |
| ShippingLabel.TotalItemsAppend | supabase/functions/generate-shipping-label/index.ts:61 | the item count is additive over any split of the items |
| ShippingLabel.TotalItemsBounds | supabase/functions/generate-shipping-label/index.ts:61 | with non-negative quantities the count is at least any one item's quantity |
| ShippingLabel.TotalItemsNonNegative | supabase/functions/generate-shipping-label/index.ts:61 | with non-negative quantities the count is non-negative |
| ShippingLabel.PackageFor | supabase/functions/generate-shipping-label/index.ts:62-67 | width 20 and length 30; height 5 per item, never more, capped at 100; 0.3 kg per item |
| ShippingLabel.HeightMonotone | supabase/functions/generate-shipping-label/index.ts:62-67 | more items never make a lower package |
| ShippingLabel.HeightSaturates | supabase/functions/generate-shipping-label/index.ts:62-67 | from 20 items on, the height stays at its cap |
| ShippingLabel.DigitsOnly | supabase/functions/generate-shipping-label/index.ts:91-105 | the stripped postal code holds only digits, holds exactly the input's digit characters, and is no longer than the input |
| ShippingLabel.DigitsOnlyOne | supabase/functions/generate-shipping-label/index.ts:91-105 | one character: a digit is kept, anything else removed; with the concatenation lemma this fixes the result for every input |
| ShippingLabel.DigitsOnlyAppend | supabase/functions/generate-shipping-label/index.ts:91-105 | stripping distributes over concatenation, so the digits keep their order |
| ShippingLabel.DigitsOnlyOfDigits | supabase/functions/generate-shipping-label/index.ts:91-105 | a string of digits is left as it is |
| ShippingLabel.DigitsOnlyIdempotent | supabase/functions/generate-shipping-label/index.ts:91-105 | stripping twice is stripping once |
| ShippingLabel.ProductName | supabase/functions/generate-shipping-label/index.ts:106-110 | `Pedido #` followed by the first eight characters of the order id, or all of a shorter id |
| ShippingLabel.Sender | supabase/functions/generate-shipping-label/index.ts:80-92 | the configured sender unchanged except its postal code, which is that code stripped to digits |
| ShippingLabel.Recipient | supabase/functions/generate-shipping-label/index.ts:93-105 | the name defaults to "Cliente"; phone, email, document, street, number, complement, district, city and state are copied; the postal code is the CEP stripped to digits |
| ShippingLabel.BuildCartRequest | supabase/functions/generate-shipping-label/index.ts:70-122 | one product of quantity 1 named after the order, valued and insured at the subtotal, in the package sized for the item count, from the sender to the recipient |
| ShippingLabel.FailedStep | supabase/functions/generate-shipping-label/index.ts:124-200 | the first failing step among the four required ones, 0 when none fails |
| ShippingLabel.TrackingCodeOf | supabase/functions/generate-shipping-label/index.ts:206-224 | a tracking code exists exactly when the call succeeded and has a non-empty entry for the cart item |
| ShippingLabel.Saga | supabase/functions/generate-shipping-label/index.ts:37-249 | at most five provider calls, none exactly when the API key or the order is missing, each of those with its own error message; a write-back happens only with a label response that carries the same tracking code |
| ShippingLabel.StepFailureAborts | supabase/functions/generate-shipping-label/index.ts:124-200 | a failure at step k makes exactly k calls, writes nothing back and answers with the error of step k (add to cart, checkout, generate, print) followed by the provider's reply text |
| ShippingLabel.TrackingIsOptional | supabase/functions/generate-shipping-label/index.ts:206-242 | once the label is printed the run succeeds after five calls, answering with the cart item id and the label URL |
| ShippingLabel.WriteBackIff | supabase/functions/generate-shipping-label/index.ts:227-232 | the order is written back exactly when configured, found, every step succeeded and a non-empty tracking code came back |
| ShippingLabel.FailedTrackingStillSucceeds | supabase/functions/generate-shipping-label/index.ts:206-242 | a failed tracking call still answers with the label, without a tracking code and without a write-back |
| ShippingLabel.Shipped | supabase/functions/generate-shipping-label/index.ts:227-232 | the tracking code is set and the status becomes `shipped`; the other columns are kept |
| ShippingLabel.OrderTable.GenerateLabel | supabase/functions/generate-shipping-label/index.ts:37-249 | the answer is the run's response; the cart request is sent exactly when configured and the order exists, and is built from that order; the row is marked shipped when the run writes back and the database accepts it, and the table is unchanged otherwise |
| Storefront.CardAddTarget | src/pages/Loja.tsx:84-109 | no user → login; a product with sizes or colours → its page; otherwise it is added directly with the cart's default quantity 1 and no size or colour, each if and only if |
| Storefront.SelectionGoesToProductPage | src/pages/Loja.tsx:84-109 | a product with a choice to make is never added from the listing |
| Storefront.StockLabelOf | src/pages/Loja.tsx:229-245 | no label without a numeric stock; sold out at 0; "few left" up to 5; otherwise the count, each if and only if |
| Storefront.CartButtonDisabled | src/pages/Loja.tsx:253 | disabled exactly while that product is being added or when its stock is 0 |
| Storefront.SoldOutDisablesButton | src/pages/Loja.tsx:229-253 | a sold-out label always comes with a disabled button |
| Storefront.Without | src/pages/Loja.tsx:51 | exactly the names other than the one removed |
| Storefront.CategoryOptions | src/pages/Loja.tsx:51 | "Todos" first, then the loaded names, or the defaults other than "Todos" |
| Storefront.DefaultOptions | src/pages/Loja.tsx:20 | with nothing loaded the options are the eight defaults, "Todos" once |
| Storefront.FiltersToParams | src/pages/Loja.tsx:111-116 | `q` exactly when the trimmed term is non-empty, holding it; `category` exactly when it is not "Todos"; no other key |
| Storefront.ParamsToFilters | src/pages/Loja.tsx:27-48 | a category is always selected: the URL's non-empty `category`, else "Todos"; the term is the URL's `q`, or empty without one |
| Storefront.FiltersRoundTrip | src/pages/Loja.tsx:111-116 | writing the filters to the URL and reading them back gives the category and the trimmed term |
| Storefront.ParamsStable | src/pages/Loja.tsx:111-116 | filters read from any URL, written back and read again, are the same up to trimming the term |
| Storefront.Listing | src/pages/Loja.tsx:56-69 | exactly the loaded products that are active, of the category unless "Todos", and naming the trimmed term when there is one |
| Storefront.UnfilteredListing | src/pages/Loja.tsx:56-69 | "Todos" with a blank term lists every active product, in order |
| Storefront.CategoryNarrows | src/pages/Loja.tsx:62-64 | listing one category is filtering the unfiltered listing by that category |
| ProductPage.AddButtonDisabled | src/pages/Produto.tsx:273-277 | disabled exactly while adding, for an inactive product, or with a required size missing |
| ProductPage.TypedQuantity | src/pages/Produto.tsx:255 | a typed number of at least 1 is kept; NaN, 0 and anything below 1 become 1 |
| ProductPage.AddDecision | src/pages/Produto.tsx:58-90 | the size check first, then the login; otherwise the cart is asked for the picked quantity, with an empty size or colour as absent, each if and only if |
| ProductPage.EnabledButtonPassesSizeCheck | src/pages/Produto.tsx:273-277 | a press on an enabled button never stops at the size check |
| ProductPage.ColorNotRequired | src/pages/Produto.tsx:58-90 | the page never checks the colour: a product with colours and no sizes is sent to the cart without one, whatever the cart answers (the cart refuses it, as Cart.AddNeedsColor states) |
| ProductPage.ProductView.SelectSize | src/pages/Produto.tsx:204 | only the size changes |
| ProductPage.ProductView.SelectColor | src/pages/Produto.tsx:226 | only the colour changes |
| ProductPage.ProductView.Decrement | src/pages/Produto.tsx:246 | one less, never below 1 |
| ProductPage.ProductView.Increment | src/pages/Produto.tsx:259 | one more |
| ProductPage.ProductView.TypeQuantity | src/pages/Produto.tsx:255 | the quantity becomes the typed quantity, at least 1 |
| ProductPage.ProductView.HandleAddToCart | src/pages/Produto.tsx:58-90 | the outcome is the handler's decision; a successful add resets the picks to nothing and one; otherwise they are kept; the busy flag is off once the cart has answered |
| NewArrivals.ProductBadge | src/pages/Novidades.tsx:35-44 | a discount gives "Destaque" (destructive); else the first three are "Novo" and the rest "Destaque" (secondary) |
| NewArrivals.Badges | src/pages/Novidades.tsx:71-73 | one badge per product, each chosen by its position in the list |
| NewArrivals.AtMostThreeNew | src/pages/Novidades.tsx:35-44 | however long the list, at most three badges say "Novo" |
| NewArrivals.NewIffFirstThree | src/pages/Novidades.tsx:35-44 | without a discount, a product is "Novo" exactly when it is among the first three |
| NewArrivals.DestructiveIffDiscount | src/pages/Novidades.tsx:35-44 | a badge is destructive exactly when the product page would show a discount for the same prices |
| Common.Split | src/lib/image-upload.ts:60 | `split` on one character gives at least one part, none containing the separator |
| Common.JoinSplit | src/lib/image-upload.ts:60-68 | joining the parts of a split with the same separator gives back the input |
| Common.SplitConcat | src/lib/image-upload.ts:60-68 | splitting two strings joined at a separator splits each of them |
| Common.TrimIsTrimmed | src/pages/Admin.tsx:248-249 | `trim` leaves no white space at either end |
| Common.TrimCutsOnlySpace | src/pages/Admin.tsx:248-249 | `trim` cuts only white space, before and after the text it keeps |
| Common.TrimIdempotent | src/pages/Admin.tsx:248-249 | trimming twice is trimming once |
| Common.TrimEmptyIffBlank | src/pages/Loja.tsx:66 | a trimmed term is empty exactly when it is all white space |
| Common.Distinct | src/pages/Admin.tsx:256-262 | `Array.from(new Set(...))` keeps every value once and nothing else |
| Common.DistinctFirstOccurrenceOrder | src/pages/Admin.tsx:256-262 | the values keep the order of their first occurrence |

## Left out

- Network and database I/O, React rendering, toasts, navigation, query invalidation and concurrency are not modelled. Each remote call is a parameter that stands for its answer.
- The clock, `Math.random` and database-generated ids are parameters or counters. A new cart line and a new product take the next value of a counter.
- Cart.CartTable.AddToCart: the id counter advances on every successful add, even when the add merges into an existing line.
- The joined `cartItems` query shape and the product data it embeds are left out. A line whose product is gone is priced 0 (`useCart.ts:59`).
- Storefront.Listing: the database's `ilike` (case-insensitive, with `%` and `_` wildcards) is modelled as case-sensitive containment. The `created_at` ordering is taken to be the order the products arrive in.
- AdminCatalog.UpperAscii: `toUpperCase` is modelled on ASCII letters only. Other letters are left as they are.
- AdminCatalog.SaveCoupon: the value's type (percentage or fixed) is copied without any range check, as in the source. The expiry date's text is not normalised.
- AdminCatalog.CleanRow: the editor's row id is dropped. The source does not use it either.
- ShippingLabel.PackageFor: the weight of 0.3 kg per item is kept as integer tenths of a kilogram, not as a floating-point number.
- CreatePayment.MapItem: `Number(...)` and `parseFloat(...)` are given already evaluated. JSON parsing, `NaN` and JavaScript's floating-point prices are not modelled; prices are integer cents.
- Discount percentages, rounding and currency formatting on the pages are not modelled. They are presentation only.
- The presentation-only components (`Home.tsx`, the admin tabs, `ImageUpload.tsx`) are not part of this model.
- ShippingLabel.Saga: an OK provider reply whose body is not JSON makes the source throw and answer 500; the model takes every OK reply as already parsed.
- ShippingLabel.Saga: missing database credentials (the client is created from them, index.ts:41) and a request body that is not JSON (index.ts:43) make the source throw and answer 500 before any provider call; the model has neither case and starts from the API key check.
- CreatePayment.CreatePreference: a gateway error reply's status is not constrained to a non-OK status; the source only reaches that branch when `response.ok` is false.
- Environment variables and secrets are booleans saying whether they are set.
- ShippingLabel.Recipient: an absent `cep` or a null `shipping_address` makes the source throw and answer 500; the model reads every absent address field as the empty string, so such an order is sent with an empty postal code instead.
- CreatePayment.CreatePreference: an error status whose body is JSON is relayed; the details object echoed in that answer is not modelled.

## Findings

| source | as written | input that shows it | evidently intended | confidence | as-written member | corrected member |
|---|---|---|---|---|---|---|
| src/lib/image-upload.ts:60-68 | the path to remove is taken from the first `products` segment of the public URL on, so it keeps the bucket name in front of the object path | the image uploaded as `products/1-abc.jpg`, whose public URL is `<origin>/storage/v1/object/public/products/products/1-abc.jpg`, is removed as `products/products/1-abc.jpg` | remove the segments after the bucket segment, the path the object was stored under | medium, not executed | ImageUpload.UploadThenDeleteAsWritten | ImageUpload.DeleteImageCorrected |
