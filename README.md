# Keychain order tracker — a Dafny model of its form and dashboard rules

The application tracks batches ("order groups") of custom keychain orders. Its
screens are mostly store calls and markup; what this project models are the
rules with exact behaviour:

- **Domain types** (`types.dfy`, module `Types`, from `types/index.ts`): the
  closed unions `KeychainType`, `DeliveryType` and `OrderStatus` as datatypes,
  with the string literals each union admits; the `Order`
  and `OrderGroup` records, with `orders` optional (`Option<seq<Order>>`).
- **The create form** (`create_page.dfy`, module `CreatePage`, from
  `app/create/page.tsx`): the class `FormState` holds the group name and the
  list of order drafts, and its methods are the page's handlers (`addOrder`,
  `removeOrder`, `updateOrder`, `removeImage`, the amount field,
  `handleImageUpload`, `handleSubmit`). Each method's postcondition gives the
  new list as a function of the old one (`UpdatedAt`, `RemovedAt`), and those
  functions carry the "only this entry / only this field changes" contracts.
  Pure functions cover the header's noun selector `getOrdersText`, the upload
  checks, the resize rule (over `real`), the order payloads, and the
  `required` attributes of a row. A replay of UI actions shows that the list
  never becomes empty.
- **The dashboard** (`home_page.dfy`, module `HomePage`, from `app/page.tsx`):
  the all / active / completed filter, the per-group counts and progress
  percentage, and the count labels.
- Support modules: `Wrappers` (Option), `JsText` (JavaScript's `trim`,
  `startsWith` and `parseInt` as the form uses them), and `RussianPlural` (the
  Unicode CLDR plural categories of Russian on non-negative integers, the
  reference the noun selectors are proved against).

Clock, file contents, the browser's image decoding and JPEG encoding, and the
ids the store assigns are parameters: `today`, `decoded`, `encoded` and
`groupId`.

## Model

| member | source | states |
|---|---|---|
| `Types.ParseKeychainType` | types/index.ts:1 | a string names a keychain type only when it is that variant's literal (the page's `as` cast checks nothing; the select at app/create/page.tsx:379-382 offers exactly these literals) |
| `Types.KeychainTypeTagsRoundTrip` | types/index.ts:1 | the four variants GH, 2G, Coupled, Square have distinct literals, and those four are the only strings that read back as a keychain type |
| `Types.ParseDeliveryType` | types/index.ts:2 | a string names a delivery type only when it is that variant's literal (the select at app/create/page.tsx:475-476 offers exactly these) |
| `Types.DeliveryTypeTagsRoundTrip` | types/index.ts:2 | exactly two variants, "to deliver" and "comes and takes", each read back from its own literal |
| `Types.ParseOrderStatus` | types/index.ts:3 | a string names a status only when it is that variant's literal (the select at app/create/page.tsx:437-454 offers exactly these) |
| `Types.OrderStatusTagsRoundTrip` | types/index.ts:3 | exactly three variants, critical, normal and done, each read back from its own literal |
| `Types.StatusIndependentOfDone` | types/index.ts:17-19 | `status` and `done` are independent fields: any pair of values is an order, and setting one keeps the other |
| `JsText.Trim` | app/create/page.tsx:173 | `trim` returns the middle slice of the string: everything it drops before and after is JavaScript whitespace, and what it keeps neither starts nor ends with whitespace; it is empty exactly when the string is whitespace only |
| `JsText.TrimEmptyIffAllWhitespace` | app/create/page.tsx:173 | `groupName.trim()` is empty exactly when the name is empty or whitespace only |
| `JsText.TrimKeepsInnerText` | app/create/page.tsx:173 | a name with no surrounding whitespace is unchanged by `trim` |
| `JsText.ParseIntOfNumeral` | app/create/page.tsx:397 | `parseInt` is NaN exactly when no digit follows the optional minus sign; a string of digits, with or without a leading minus, reads as its value |
| `JsText.ParseIntOfDecimal` | app/create/page.tsx:397 | `parseInt` reads back the numeral of any integer, with or without a minus sign, and stops at the first non-digit |
| `RussianPlural.ByLastDigitsFollowsCldr` | app/create/page.tsx:82-89 | declining by the last two digits and then the last digit gives, for every n ≥ 0, the form of n's CLDR Russian plural category |
| `CreatePage.OrdersText` | app/create/page.tsx:82-89 | when n % 100 is 11..19 the form is "заказов" whatever the last digit; the result is always one of "заказ", "заказа", "заказов" |
| `CreatePage.OrdersTextFollowsCldr` | app/create/page.tsx:82-89 | for every n ≥ 0 the selector returns the form of n's CLDR Russian plural category: "заказ" for one, "заказа" for few, "заказов" for many |
| `CreatePage.Get` | app/create/page.tsx:16-30 | reading any field of a draft yields a value of that field's type |
| `CreatePage.SetField` | app/create/page.tsx:93 | `{ ...draft, [field]: value }` holds the value in that field and every other field unchanged |
| `CreatePage.SetFieldLaws` | app/create/page.tsx:93 | the spread update is the only draft that differs from the old one in that field alone; writing back a field's own value is a no-op; a second write to a field overrides the first |
| `CreatePage.UpdatedAt` | app/create/page.tsx:91-95 | `updateOrder` keeps the length, sets field f of draft i, keeps its other fields and every other draft |
| `CreatePage.RemovedAt` | app/create/page.tsx:78-80 | the index filter drops exactly position i and shifts the rest down in order; an out-of-range index leaves the list as it is |
| `CreatePage.CheckUpload` | app/create/page.tsx:97-110 | no file gives the silent return, exactly; a file whose type does not start with "image/" gives the type alert, exactly; an image over 5·1024·1024 bytes gives the size alert, exactly; every other file proceeds |
| `CreatePage.Resize` | app/create/page.tsx:121-132 | sides both ≤ 800 are kept; otherwise the longer side (the height on a tie) becomes 800; both results are within [0, 800], never larger than the input, and width/height is preserved |
| `CreatePage.ScaledSide` | app/create/page.tsx:127-130 | the side scaled by 800/longer stays within 800 and within its own length and keeps the proportion |
| `CreatePage.Inserts` | app/create/page.tsx:190-196 | one `createOrder` payload per draft, in order, each the draft plus the created group's id |
| `CreatePage.AddressRequiredOnlyForDelivery` | app/create/page.tsx:480-498 | the address decides a row's completeness only when the delivery type is "to deliver", where an empty address makes the row incomplete |
| `CreatePage.AmountFromInput` | app/create/page.tsx:393-398 | an empty field, or one with no digit after the optional minus, stores 0; a numeral stores its value, negated after a leading minus |
| `CreatePage.AmountFieldRoundTrip` | app/create/page.tsx:389-398 | typing an integer's numeral, with an optional fraction, stores that integer; clearing the field stores 0 |
| `CreatePage.FormState.constructor` | app/create/page.tsx:34-51 | the form opens with an empty name and exactly one default draft |
| `CreatePage.FormState.SetGroupName` | app/create/page.tsx:242-249 | the name input replaces the name and leaves the drafts alone |
| `CreatePage.FormState.AddOrder` | app/create/page.tsx:57-76 | the list grows by one with earlier drafts unchanged; the new draft has amount 100, status normal, type GH, delivery "to deliver", no image, and accepted and done false |
| `CreatePage.FormState.RemoveOrder` | app/create/page.tsx:78-80 | the new list is the old one without position i (unchanged for an out-of-range i); a list of more than one draft stays non-empty |
| `CreatePage.FormState.UpdateOrder` | app/create/page.tsx:91-95 | the new list is the old one with only field f of draft i set to v |
| `CreatePage.FormState.RemoveImage` | app/create/page.tsx:166-168 | the `image_url` update with null: draft i has no image, everything else unchanged |
| `CreatePage.FormState.UpdateAmount` | app/create/page.tsx:389-398 | the amount of draft i becomes the parsed value, or 0 when it does not parse, nothing else changes |
| `CreatePage.FormState.HandleImageUpload` | app/create/page.tsx:97-164 | a refused or undecodable upload changes nothing; an accepted one sizes the canvas by the resize rule and sets only draft i's image |
| `CreatePage.FormState.Submit` | app/create/page.tsx:170-197 | refused for a blank name (checked first), then for an empty list; otherwise a group under the name as typed and one payload per draft with the new group's id |
| `CreatePage.Step` | app/create/page.tsx:254-274 | one add, delete or field edit that the page offers leaves a non-empty list non-empty |
| `CreatePage.DraftsNeverEmpty` | app/create/page.tsx:254-274 | since delete buttons appear only while there is more than one row, no sequence of adds, deletes and field edits (a stored image being a field edit) empties the list |
| `CreatePage.UploadCompletionAsWritten` | app/create/page.tsx:120-143 | the completed upload rebuilds the list from the drafts of the render in which it started: every other draft, and every other field of draft i, is taken from that render, whatever the current list holds |
| `CreatePage.UploadCompletionLosesEdits` | app/create/page.tsx:120-143 | that rebuild discards a name typed meanwhile; and of two uploads started from the same list, the one that finishes first loses its image when the other finishes |
| `HomePage.AnyWithDone` | app/page.tsx:29-30 | `some` is true exactly when some order has the given `done` value |
| `HomePage.FilterGroups` | app/page.tsx:27-35 | the result is an order-preserving subsequence of the groups; each group the filter keeps occurs as often as in the input, every other group not at all |
| `HomePage.FilterAllIsIdentity` | app/page.tsx:27-28 | "all" returns the list unchanged |
| `HomePage.ActiveMeansSomeUndone` | app/page.tsx:29-32 | "active" keeps exactly the groups with an order whose `done` is false |
| `HomePage.CompletedMeansAllDone` | app/page.tsx:30-33 | "completed" keeps exactly the groups with at least one order and every order done |
| `HomePage.ActiveAndCompletedPartition` | app/page.tsx:29-33 | a group with orders is in exactly one of "active" and "completed"; one with an empty or absent list is in neither |
| `HomePage.ActivePlusCompletedCount` | app/page.tsx:27-35 | the "active" and "completed" lists together have as many groups as there are groups with orders |
| `HomePage.CountDone` | app/page.tsx:141-142 | the done count is at most the number of orders, equals it exactly when all are done, and is 0 exactly when none is |
| `HomePage.OnlyDoneFlagsCount` | app/page.tsx:29-30 | two order lists that agree on every `done` flag have the same done count and the same answers to both `some` tests |
| `HomePage.StatusDoesNotAffectCounts` | app/page.tsx:141-142 | changing an order's `status` does not change the done count |
| `HomePage.CountsBounded` | app/page.tsx:140-142 | completed ≤ total; both are 0 when `orders` is absent; total is positive exactly when the group has orders |
| `HomePage.ProgressBounds` | app/page.tsx:143-144 | progress lies in [0, 100], is 100 exactly when there are orders and all are done, and 0 exactly when none is done (or there are none) |
| `HomePage.FiltersMatchProgress` | app/page.tsx:27-35 | "completed" keeps exactly the groups at 100% progress; "active" exactly those with fewer done than total |
| `HomePage.GroupCountLabel` | app/page.tsx:48-49 | the header label is "группа" exactly when the group count is 1, else "групп" |
| `HomePage.OrderCountLabel` | app/page.tsx:194-195 | a card's label is "заказ" exactly when the order count is 1, else "заказов" |
| `HomePage.CountLabelsMisdecline` | app/page.tsx:49 | for 2 the labels read "групп"/"заказов" where the CLDR category asks for "группы"/"заказа"; for 21 "групп" where it asks for "группа" |
| `HomePage.GroupCountLabelCorrected` | app/page.tsx:49 | the declined header label still says "группа" for one group and uses one of the noun's three forms |
| `HomePage.GroupCountLabelCorrectedFollowsCldr` | app/page.tsx:49 | the declined header label is the form of the count's CLDR Russian plural category |

## Left out

- `app/actions.ts`: each mutation (app/actions.ts:26-95) is one store call followed by `revalidatePath("/")`, and `getOrderGroups` (app/actions.ts:7-24) is one select that returns `[]` on a store error, which the dashboard shows as its empty state; the store and its created_at-descending ordering are not part of this model. Store ids and failures are not modelled: `Submit` returns the requests it would make, given the id the store assigns.
- The browser image pipeline (`FileReader`, `img.onload`/`onerror`, canvas drawing and JPEG encoding at quality 0.7): asynchronous browser APIs and a lossy encoding. They enter as the `decoded` size (None when reading or decoding fails) and the `encoded` data URL. Assigning a fractional size to `canvas.width`/`height` truncates it; that truncation is not modelled.
- `Promise.all`, `router.push`, `alert`, `console.error` and the catch branch of `handleSubmit`: concurrency, navigation and I/O.
- React plumbing: `useEffect` loading, the `loading`, `saving` and `uploadingImages` flags, the filter menu toggle, JSX and styling, the date formatting of `date-fns`, `Math.round` and the CSS width string built from `progress`.
- CreatePage.FormState.UpdateOrder: requires an existing row and a value of the field's type. Every handler passes the index of a rendered row and a typed value; in JavaScript an out-of-range index would add a partial row or a hole, which is not modelled.
- CreatePage.AmountFromInput: `amount` is a JavaScript number (a double); `parseInt` rounds a numeral beyond 2^53 to the nearest double and gives Infinity for one beyond about 1.8·10^308, which `|| 0` keeps. The model's `amount: int` is exact and unbounded.
- CreatePage.DraftsNeverEmpty: the events are adds, deletes and field edits; the as-written upload completion puts back the list of an earlier render, of that render's length, and is not one of the replayed events.
- CreatePage.OrdersText: defined on non-negative integers only, since the page calls it with `orders.length`.
- JsText.ParseInt: only the inputs an `<input type="number">` produces (empty, or an optional minus and a decimal numeral); `parseInt`'s hexadecimal prefix, leading whitespace and `+` sign are not modelled.
- Browser constraint validation (`required`, `min="0"`) runs before `onSubmit`; it is modelled by `DraftComplete` but not linked to `Submit`. The amount can hold a negative value in the form's state (typing "-5" stores -5); only `min="0"` (app/create/page.tsx:391) keeps it from being submitted.
- The payload carries the draft's `image_url` though `Order` in types/index.ts has no such field; the model keeps it, as the page sends it.
- `app/group/[id]/page.tsx` (the detail view) is not part of this model.

## Findings

| source | as written | input that shows it | evidently intended | confidence | as-written member | corrected member |
|---|---|---|---|---|---|---|
| app/create/page.tsx:120-143 | `img.onload` calls the `updateOrder` of the render in which the upload began, so the list is rebuilt from that render's drafts | pick an image for row 1, then type a customer name in row 1 before the image has loaded: the name reverts to empty; or start uploads on rows 1 and 2 from the same list: when row 1's finishes first, row 2's completion puts back the list without row 1's image | set the image on the drafts as they are when the image has loaded, keeping other edits | medium: depends on timing; not executed | `CreatePage.UploadCompletionAsWritten`, `CreatePage.UploadCompletionLosesEdits` | `CreatePage.FormState.HandleImageUpload` (with `CreatePage.UpdatedAt`) |
| app/page.tsx:49, app/page.tsx:195 | the labels after a count are singular only for 1 and "групп"/"заказов" otherwise | 2 groups show "2 групп" (Russian: "2 группы"); 21 groups show "21 групп" (Russian: "21 группа"); a card with 2 orders shows "2 заказов" | decline by the last digits, as the create page's `getOrdersText` does | medium: display text only; not executed | `HomePage.GroupCountLabel`, `HomePage.OrderCountLabel`, `HomePage.CountLabelsMisdecline` | `HomePage.GroupCountLabelCorrected` (proved by `HomePage.GroupCountLabelCorrectedFollowsCldr`), `CreatePage.OrdersText` (proved by `CreatePage.OrdersTextFollowsCldr`) |
