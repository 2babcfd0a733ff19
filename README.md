# FastShip core, modelled in Dafny

FastShip is a shipment-tracking service. Sellers submit shipments. The backend assigns each
shipment to a delivery partner that serves the destination zip code. Partners post status
updates, and sellers and partners page through their shipments. This project models the parts
of the system that carry logic and proves what they promise:

- **Partner service** (`partner_service.dfy`).
  - `add` attaches one serviceable location per submitted zip code, reusing existing location rows.
  - `get_partner_by_zipcode` is a filter over the partners.
  - `assign_shipment` picks the first eligible partner with positive current capacity, appends the shipment to it, or fails with `DeliveryPartnerNotAvailable`.
  - `DeliveryPartner` is a class whose `shipments` and profile fields the service and routes update in place.
- **Partner routes** (`partner_router.dfy`).
  - The partial profile update: `model_dump(exclude_none=True)`, `EntityNotFound` on an empty update, then `sqlmodel_update`.
  - The paged listing of the partner's shipments.
- **Seller routes** (`seller_router.dfy`): the paged listing of the seller's shipments.
- **Pagination** (`pagination.dfy`).
  - The query parameters and their defaults.
  - The listing query both routes run: owner filter, `ORDER BY created_at`, `OFFSET (page-1)*pageSize`, `LIMIT pageSize`.
  - The page count the handlers compute, `ceil(total / pageSize)`.
  - The proof that pages 1 to `total_pages` together give the whole ordered listing.
- **Timeline helpers** (`timeline.dfy`).
  - `getLatestStatus`, and the dashboard count `getShipmentsCountWithStatus`.
  - The count over a concatenation is the sum of the counts.
  - The counts over all seven statuses sum to the list length.
- **Shipment update form** (`update_shipment_form.dfy`).
  - The offered statuses.
  - The checks a submission passes before one update request is sent, and the payload it sends.
  - The toast texts.
  - What the form displays.
  - The component state as a class: selected status, toasts, mutations and invalidated queries.
- **Generated HTTP client** (`http_client.dfy`, over the JavaScript value model in `js_values.dfy`).
  - Object spread as an ordered property list.
  - The precedence of `mergeRequestParams`.
  - `stringifyFormItem`.
  - `createFormData`, as a loop that fills a `FormData` object.
  - The configuration `request` hands to axios: headers, `Content-Type`, `responseType`, body encoding and URL.
- **Data shapes** (`api_types.dfy`, `records.dfy`).
  - The closed `ShipmentStatus` and `TagName` enumerations and their wire strings.
  - The annotated bounds: weight 1..25 and rating 1..5.
  - The timeline records.
  - The database rows the routes read.

`assign_shipment` (backend/app/services/deliver_partner.py:51-59) gives the shipment to the
first partner, in query order, that covers the destination and whose current capacity is
positive. It does not pick the least-loaded partner. `PartnerService.FirstAvailable`,
`PartnerService.FirstFit` and `PartnerService.AssignShipment` state exactly that.

The partial profile update of a partner may supply `serviceable_zip_codes` but never touches
`serviceable_locations`, so it cannot change which zip codes the partner covers;
`PartnerRouter.UpdateDeliveryPartner` states that. The model treats `serviceable_zip_codes` as
a settable attribute of the partner row (see "Left out").

utils.ts exports `getShipmentsCountWithStatus` under the name `getShipmentsCountForStatus`; the
model has one member for the function.

External behaviour enters as parameters:
- `JSON.stringify` and `parseInt`.
- The security worker.
- The location table as `session.get` sees it.
- The identity and capacity that user creation gives a new partner.

## Model

| member | source | states |
|---|---|---|
| ApiTypes.ParseShipmentStatus | frontend/app/lib/client.ts:28-36 | a string is accepted as a status exactly when it is one of the seven wire strings, and then maps to the member carrying it |
| ApiTypes.ParseTagName | frontend/app/lib/client.ts:14-25 | a string is accepted as a tag exactly when it is one of the ten wire strings, and then maps to the member carrying it |
| ApiTypes.ShipmentStatusIsClosed | frontend/app/lib/client.ts:28-36 | ShipmentStatus has exactly seven members with pairwise distinct wire strings, and each reads back to itself |
| ApiTypes.TagNameIsClosed | frontend/app/lib/client.ts:14-25 | TagName has exactly ten members with pairwise distinct wire strings, and each reads back to itself |
| Pagination.GetPaginationParams | backend/app/api/schemas/pagination.py:5-14 | missing parameters default to page 1, page size 10 and ascending order; given values are kept; an order other than asc/desc is rejected |
| Pagination.OrderByCreatedAt | backend/app/api/routers/delivery_partner.py:145-149 | ordering returns a permutation of the rows, sorted by creation time in the requested direction |
| Pagination.Owned | backend/app/api/routers/delivery_partner.py:140-142 | the owner filter keeps every row of the table the predicate accepts and nothing else; a one-row table keeps its row iff the predicate accepts it |
| Pagination.OwnedConcat | backend/app/api/routers/delivery_partner.py:140-142 | filtering a concatenation is concatenating the filtered parts, so the filter keeps table order and multiplicity |
| Pagination.OrderedRowsAreOwned | backend/app/api/routers/delivery_partner.py:140-149 | every row of the ordered listing is a table row the owner filter accepts |
| Pagination.PageSlice | backend/app/api/routers/delivery_partner.py:143-144 | OFFSET/LIMIT keeps at most `limit` rows, exactly `min(limit, len - offset)` of them, starting at row `offset` |
| Pagination.CeilDiv | backend/app/api/routers/delivery_partner.py:156 | the page count is the least number of `pageSize`-row pages that holds all rows |
| Pagination.OffsetSign | backend/app/api/routers/delivery_partner.py:144 | with a positive page size the offset is negative exactly when the page is below 1 |
| Pagination.ListShipments | backend/app/api/routers/delivery_partner.py:140-157 | the listing succeeds iff page >= 1 and page size >= 1; a zero page size fails the page count; on success the page and total are echoed and the page count bounds the total |
| Pagination.ListedPage | backend/app/api/routers/delivery_partner.py:140-150 | a page has at most pageSize rows, all owned table rows, sorted, and is the run of the ordered listing starting at (page-1)*pageSize: min(pageSize, rows left) rows, none once the offset is past the end |
| Pagination.SortedPermutationIsUnique | backend/app/api/routers/delivery_partner.py:145-149 | when no two distinct rows share a creation time, there is only one sorted order of a given multiset of rows |
| Pagination.OrderedListingIsUnique | backend/app/api/routers/delivery_partner.py:140-149 | when creation times are distinct among the owned rows, every sorted permutation of them is the ordered listing, so each page query sees the same order |
| Pagination.TiedRowsCanRepeatAcrossPages | backend/app/api/routers/delivery_partner.py:143-149 | with two rows of equal creation time, two valid orders exist, and when page 1's query returns one and page 2's the other, the pages show the same row twice |
| Pagination.PagesCoverListing | backend/app/api/routers/delivery_partner.py:140-157 | when the total is the number of owned rows and every page is cut from the same ordered listing, pages 1..total_pages concatenated give the whole listing: no row is lost or repeated |
| Pagination.QueriedPagesAreSlices | backend/app/api/routers/delivery_partner.py:143-144 | when every page's query returns the same sequence, the pages cut by OFFSET/LIMIT one after the other are that sequence's consecutive slices |
| Pagination.QueriedPagesCoverListing | backend/app/api/routers/delivery_partner.py:140-157 | when the owned rows have distinct creation times and each page's query returns them in an order ORDER BY created_at allows, pages 1..total_pages together give the whole ordered listing, each row once |
| PartnerService.GetPartnerByZipcode | backend/app/services/deliver_partner.py:29-36 | exactly the partners having a serviceable location with the given zip code; a one-partner list is kept iff the partner covers the zip code |
| PartnerService.GetPartnerByZipcodeConcat | backend/app/services/deliver_partner.py:29-36 | the filter over a concatenation is the concatenation of the filters, so it keeps query order and multiplicity |
| PartnerService.FirstAvailable | backend/app/services/deliver_partner.py:51-57 | the reference choice: a partner it picks is one of the partners, covers the zip code and has positive capacity |
| PartnerService.FirstAvailableIsFirst | backend/app/services/deliver_partner.py:51-59 | the reference choice finds nothing iff no partner covers the zip code with positive capacity, and otherwise the partner at the first position that does |
| PartnerService.FirstFitIsFirstAvailable | backend/app/services/deliver_partner.py:51-57 | the first position with positive capacity among the eligible partners is exactly the first covering partner with positive capacity in query order |
| PartnerService.FirstFit | backend/app/services/deliver_partner.py:54-57 | the first position with positive capacity, all earlier ones not positive; none iff no capacity is positive |
| PartnerService.Add | backend/app/services/deliver_partner.py:17-27 | the new partner gets one location per submitted zip code, in order and with that zip code, reusing the existing location row when there is one and creating a fresh one otherwise; no shipments |
| PartnerService.AssignShipment | backend/app/services/deliver_partner.py:51-59 | succeeds iff some partner covers the destination with positive capacity, then returns the first such partner in query order and appends the shipment to it alone; otherwise DeliveryPartnerNotAvailable; the stored profile fields are not written |
| PartnerService.AssignedPartnerIsEligible | backend/app/services/deliver_partner.py:51-57 | the picked partner is one of the partners, covers the destination and has positive capacity |
| PartnerRouter.ModelDumpExcludeNone | backend/app/api/routers/delivery_partner.py:60 | the dumped dictionary has a key exactly for each supplied field, holding its value, only the two updatable keys, and is empty iff no field is supplied |
| PartnerRouter.SqlModelUpdate | backend/app/api/routers/delivery_partner.py:65 | keys of the dictionary overwrite the attributes of that name; every other attribute is kept |
| PartnerRouter.PartialUpdateOverwritesSuppliedFields | backend/app/api/routers/delivery_partner.py:60-65 | a partial update overwrites exactly the supplied fields and keeps name, email, the stored capacity and locations |
| PartnerRouter.UpdateDeliveryPartner | backend/app/api/routers/delivery_partner.py:53-65 | EntityNotFound, with the partner unchanged, iff no field is supplied; otherwise the partner's profile becomes the partial update of the old one; shipments and covered zip codes never change |
| PartnerRouter.GetShipments | backend/app/api/routers/delivery_partner.py:133-157 | succeeds iff page >= 1 and pageSize >= 1; total is the length of the partner's shipments; page count bounds; at most pageSize rows, each assigned to the partner, sorted |
| SellerRouter.GetShipments | backend/app/api/routers/seller.py:107-131 | succeeds iff page >= 1 and pageSize >= 1; total is the length of the seller's shipments; page count bounds; at most pageSize rows, each sold by the seller, sorted |
| SellerRouter.SellerPagesCoverListing | backend/app/api/routers/seller.py:114-130 | when the seller's shipments have distinct creation times, paging through all total_pages pages, one query per page, yields each of them exactly once, in order, whichever valid order each query returned |
| Timeline.GetLatestStatus | frontend/app/lib/utils.ts:9-11 | the latest status is the status of the last timeline event |
| Timeline.AppendedEventIsLatest | frontend/app/lib/utils.ts:9-11 | after an event is appended, the latest status is that event's status |
| Timeline.ShipmentsWithStatus | frontend/app/lib/utils.ts:15 | a shipment is kept iff its latest status is the queried one; a one-shipment list is kept iff its status matches; an unknown status keeps none |
| Timeline.ShipmentsWithStatusConcat | frontend/app/lib/utils.ts:15 | filtering a concatenation is concatenating the filtered parts, so the filter keeps list order and multiplicity |
| Timeline.GetShipmentsCountWithStatus | frontend/app/lib/utils.ts:13-22 | the count is at most the number of shipments, 0 for an empty list and 0 for a string that is no status |
| Timeline.CountOfConcatenation | frontend/app/lib/utils.ts:13-17 | the count over a concatenation is the sum of the counts |
| Timeline.CountsPartitionShipments | frontend/app/lib/utils.ts:13-17 | the counts for the seven statuses sum to the number of shipments |
| UpdateShipmentForm.SelectableStatuses | frontend/app/components/update-shipment-form.tsx:27-31 | the selectable statuses are exactly in_transit, out_for_delivery and delivered |
| UpdateShipmentForm.Submit | frontend/app/components/update-shipment-form.tsx:67-92 | "Please provide an update" iff no status, location or description; "Please enter the verification code" iff delivered without a code; otherwise one request with id, status, description and code as given, and the location parsed or null when empty |
| UpdateShipmentForm.DeliveredUpdateCarriesCode | frontend/app/components/update-shipment-form.tsx:73-91 | a request marking a shipment delivered always carries a non-empty code, and no request is entirely empty |
| UpdateShipmentForm.ErrorMessage | frontend/app/components/update-shipment-form.tsx:58-63 | "Invalid verification code" iff delivered is selected, "Failed to update shipment" otherwise |
| UpdateShipmentForm.LatestEvent | frontend/app/components/update-shipment-form.tsx:94 | present iff there is a shipment with a non-empty timeline; then it is the last timeline event, carrying the latest status |
| UpdateShipmentForm.Render | frontend/app/components/update-shipment-form.tsx:119-183 | offers the three statuses; shows the 6-character code input iff delivered is selected; placeholders are the latest status, location and description when truthy, the fixed texts otherwise |
| UpdateShipmentForm.CodeRequestedOnlyWhenShown | frontend/app/components/update-shipment-form.tsx:142-145 | the form asks for a verification code only while the code input is on screen |
| UpdateShipmentForm.UpdateShipmentFormState.constructor | frontend/app/components/update-shipment-form.tsx:44 | the form mounts with no status selected and nothing shown or sent |
| UpdateShipmentForm.UpdateShipmentFormState.SetStatus | frontend/app/components/update-shipment-form.tsx:122-124 | selecting an offered status sets it and keeps the selected status among the offered ones |
| UpdateShipmentForm.UpdateShipmentFormState.UpdateShipment | frontend/app/components/update-shipment-form.tsx:67-92 | a submission adds exactly one warning toast and no request, or exactly one update request and no toast, as Submit decides; a request carries no status or one the select offers |
| UpdateShipmentForm.UpdateShipmentFormState.OnSuccess | frontend/app/components/update-shipment-form.tsx:54-57 | a success shows "Shipment updated successfully" and invalidates the shipment's query |
| UpdateShipmentForm.UpdateShipmentFormState.OnError | frontend/app/components/update-shipment-form.tsx:58-64 | a failure shows one error toast with the text ErrorMessage chooses |
| JsValues.AssignGet | frontend/app/lib/client.ts:374-377 | in an object spread, a key of the later object takes its value and every other key keeps the earlier one; the result has the keys of both |
| JsValues.IntToStringInjective | frontend/app/lib/client.ts:395 | a number's string form identifies it: distinct numbers give distinct strings |
| HttpClient.ContentTypeValuesDistinct | frontend/app/lib/client.ts:334-340 | the five content types carry five distinct MIME strings |
| HttpClient.MergedHeaders | frontend/app/lib/client.ts:372-386 | a header from params2 overrides one from params1, which overrides the defaults for the request method; the merged object has exactly their headers |
| HttpClient.MergeRequestParams | frontend/app/lib/client.ts:368-388 | outside headers, params2 overrides params1, which overrides the instance defaults, and the merge has exactly their keys; headers is the merged header object |
| HttpClient.MethodFromFirstParams | frontend/app/lib/client.ts:372 | the method whose header defaults apply is params1's when it has one, else params2's |
| HttpClient.StringifyFormItem | frontend/app/lib/client.ts:390-396 | non-null objects are JSON-encoded; strings stay as they are; null, undefined, numbers and booleans take their template-string form |
| HttpClient.EntriesFor | frontend/app/lib/client.ts:403-413 | an array gives one entry per element, in order, under the same key; any other value gives exactly one entry; blobs and files are kept, other items stringified |
| HttpClient.EntriesForKeysAppend | frontend/app/lib/client.ts:402-416 | the entries of a list of keys are the entries of its parts, in key order |
| HttpClient.EntriesForKeysCount | frontend/app/lib/client.ts:402-416 | the number of entries is the sum over the keys of the array length, or 1 for a non-array value |
| HttpClient.AppendProperty | frontend/app/lib/client.ts:406-413 | the inner loop appends exactly one property's entries after those already present |
| HttpClient.CreateFormData | frontend/app/lib/client.ts:398-417 | a FormData input is returned as it is; otherwise a fresh FormData holding exactly the expected entries in key order |
| HttpClient.ResponseFormat | frontend/app/lib/client.ts:434 | the response type is the call's format, else the instance's, else undefined |
| HttpClient.ContentTypeHeaderLookup | frontend/app/lib/client.ts:456-459 | Content-Type is the type's MIME string when a type is given, overriding the merged header; otherwise the merged one; other headers untouched |
| HttpClient.RequestConfigFields | frontend/app/lib/client.ts:454-464 | the dispatched config carries the merged headers plus Content-Type, the query as params, the response type, the body as data and the path as url; every other key is the merged parameters' |
| HttpClient.TextBody | frontend/app/lib/client.ts:445-452 | a truthy non-string body of a Text request is JSON-encoded; string bodies and all other bodies are left as they are |
| HttpClient.HttpClient.constructor | frontend/app/lib/client.ts:349-362 | the instance defaults are the remaining configuration with baseURL defaulting to ""; security data starts null |
| HttpClient.HttpClient.SecureParams | frontend/app/lib/client.ts:428-432 | nothing is added when the call (or, without a call flag, the instance) is not secure or no worker is set; otherwise the properties of the worker's output for the security data |
| HttpClient.HttpClient.SetSecurityData | frontend/app/lib/client.ts:364-366 | replaces the security data and nothing else |
| HttpClient.HttpClient.Request | frontend/app/lib/client.ts:419-465 | the config merges defaults, call parameters and the security worker's output; a truthy object body of a multipart request becomes FormData (or stays the same FormData); other bodies follow TextBody |

## Left out

- Authentication and sessions are not modelled. This covers tokens, logout, e-mail verification, password reset, the Redis blacklist, the Jinja templates and the login form. They are storage and I/O with no logic to state.
- User creation (`_add_user`) and the database models are not part of this model. `PartnerService.Add` takes the new row's id and current capacity as parameters. It leaves the row's own `serviceable_zip_codes` empty, because `add` excludes that field from the dump.
- The definition of `current_handling_capacity` is not shown in the source. It is an input field of `DeliveryPartner`.
- PartnerService.AssignShipment: "profiles never change" covers the stored `currentHandlingCapacity` field only. If the source derives the capacity from the partner's shipments, appending a shipment would lower it, and the model does not capture that.
- PartnerRouter.PartialUpdateOverwritesSuppliedFields: "keeps the capacity" is about the stored field; a capacity derived from other state is not modelled.
- PartnerRouter.UpdateDeliveryPartner: the same holds for the capacity it keeps.
- Pagination.QueriedPagesCoverListing: it requires distinct creation times among the owned rows. SQL leaves the order of tied rows open, and each page is a separate query, so with ties a row can appear on two pages and another on none; `Pagination.TiedRowsCanRepeatAcrossPages` shows such a case. `Pagination.PagesCoverListing` needs no such condition because it cuts every page from one fixed order.
- SellerRouter.SellerPagesCoverListing: it requires distinct creation times among the seller's shipments, for the reason given for `Pagination.QueriedPagesCoverListing`.
- Database join order, session flushing, transactions and locking around assignment are not modelled. The eligible partners are a given sequence, in query order.
- PartnerService.Add: `session.get` is treated as a lookup in a fixed table. If the same new zip code appears twice in one request, the model creates two location objects. An identity map would create one.
- PartnerRouter.SqlModelUpdate: only the two updatable fields are modelled. They are the keys `DeliveryPartnerUpdate` can produce.
- PartnerRouter.SqlModelUpdate: the database model is not part of this model, and the model assumes the partner row has a settable `serviceable_zip_codes` attribute. `add` leaves that key out of the row it creates, which suggests the table may have no such column; `sqlmodel_update` sets only keys that are model fields, so in that case a supplied zip-code list is ignored, and the post-state `serviceableZipCodes == supplied` of `PartnerRouter.UpdateDeliveryPartner` does not hold.
- Pagination.ListShipments: the model stops at the handler's return value and does not model FastAPI's response validation. Both routes declare a list of `DeliveryPartnerShipments` or `SellerShipments` as their response model (backend/app/api/routers/delivery_partner.py:134, backend/app/api/routers/seller.py:108), whose schemas carry only `shipments`, `total_shipments` and `page`, while the handlers return one dictionary that also holds `total_pages`. What a client receives (a validation error, or the fields without `total_pages`) is not modelled.
- Pagination.ListShipments: the database is assumed to reject a negative LIMIT or OFFSET, as PostgreSQL does. A page below 1 is then an error and not an empty page. `ceil` over float division is integer ceiling division.
- PartnerRouter.GetShipments: its own contract does not state that the rows are the exact slice of the ordered listing. That fact, length included, is proved once for both routes, in `Pagination.ListedPage`.
- SellerRouter.GetShipments: the same holds as for `PartnerRouter.GetShipments`. The exact slice is stated by `Pagination.ListedPage`.
- `backend/app/services/seller.py` and `get_shipments_by_partner` are not modelled. They are thin queries plus token decoding.
- `cn` in utils.ts (class-name merging) and its `console.log` are not modelled.
- Timeline.GetShipmentsCountWithStatus: it requires every shipment to have a timeline event. The source indexes the last event unchecked and throws otherwise. `getShipmentsCountForStatus` is only an export alias of this function, so it has no member of its own.
- UpdateShipmentForm.Render: it requires a non-empty timeline whenever a shipment is shown, because `getLatestStatus` throws otherwise. React rendering, the QR scanner and the shipment id input are not modelled.
- UpdateShipmentForm.UpdateShipmentFormState.OnSuccess: it requires a shipment, because `shipment!.id` throws without one after the toast. Query invalidation is recorded, not executed.
- UpdateShipmentForm.Submit: `parseInt` is a parameter, so NaN is not modelled. The payload includes `verification_code` as the form sends it, although the generated `ShipmentUpdate` type does not list that field.
- HttpClient.HttpClient.Request: the axios dispatch, the awaiting of the security worker and the response are not modelled. The method returns the config it would dispatch. `JSON.stringify` is a parameter, and the security worker is a pure function of the security data.
- JsValues.Spread: an object is a property list in insertion order. JavaScript orders integer-like keys first, in ascending numeric order, and the model does not. An `Obj` may also list a key twice, which a JavaScript object cannot; `Get` and `Has` read the last occurrence, as a spread would keep it.
- HttpClient.StringifyFormItem: numbers are unbounded integers. Fractions, NaN, Infinity and exponent form (`${1e21}` is "1e+21") are not modelled. The same limit applies to the location placeholder of `UpdateShipmentForm.Render`.
- HttpClient.CreateFormData: entries follow the input's property order. JavaScript's `Object.keys` puts integer-like keys first, so for such keys the real order may differ.
- JsValues.Spread: only plain objects contribute properties. Spreading a string, an array or a blob contributes none. `toLowerCase` is ASCII-only.
- HttpClient.MergeRequestParams: a truthy `method` that is not a string makes `method.toLowerCase()` throw in the source; the model does not raise an error and gives such a method no method defaults.
- The `Api` endpoint table of client.ts and axios's global defaults are not modelled.
