# logi shipment API — a Dafny model

logi is a REST API for tracking shipments. Customers create shipments and read their own
ones. Anyone can look up a shipment by its tracking id. Administrators list every shipment
with filters and pagination, change a shipment's status, payment status or amount, and
delete shipments. Authentication is a bearer token that identifies a user; admin routes also
require the user's role to be `admin`.

The model covers:

- **`common.dfy`** (`Common`): shared pieces.
  - Ids are strings; `Option` and `Result` carry the error paths.
  - `Error` covers an HTTP error with its status code and message, a validation error with
    the set of failing paths, a duplicate key, a cast failure, a database query error and a
    JavaScript TypeError.
- **`schema.dfy`** (`Schema`): the Shipment document (`models/Shipment.js`).
  - The status, payment and type enumerations, and the defaults.
  - The required fields: a required String rejects a missing value and the empty string; a
    required Number rejects only a missing value.
  - The default tracking id: the first eight characters of a uuid, upper-cased.
  - `Shipment.create` is validation plus defaults. `findOneAndUpdate` runs the schema's
    pre-hook, which refreshes `updatedAt`.
- **`operator_rewrite.dfy`** (`OperatorRewrite`): how the listing turns its query into a
  filter.
  - The parsed query is serialised as `JSON.stringify` writes it.
  - Then `$` is inserted before every whole word `gt`, `gte`, `lt`, `lte` or `in`.
  - The regular expression `\b(gt|gte|lt|lte|in)\b` can only match a whole maximal run of
    word characters, so the rewrite is modelled run by run.
- **`query_params.dfy`** (`QueryParams`): pagination.
  - `parseInt(value, 10) || default` for `page` and `limit`: leading white space, one sign,
    the longest digit run; NaN or 0 give the default.
  - The start and end indices, the database's skip/limit window, and the `next`/`prev`
    metadata.
- **`store.dfy`** (`Store`): the collection.
  - A class `ShipmentStore` whose `shipments` map the controller methods update in place.
  - Its invariant: every document is valid, is stored under its own id, and no two documents
    share a tracking id (the unique index).
- **`admin_controller.dfy`** (`AdminController`): `controllers/adminController.js`.
  - The listing, as a method `GetAllShipments` proved against the function `ListingOf`.
  - `updateShipmentStatus`, `updatePaymentStatus`, `updateAmount` and `deleteShipment` as
    methods on the store.
- **`shipment_controller.dfy`** (`ShipmentController`): `controllers/shipmentController.js`.
  - `createShipment` as a method on the store.
  - The caller's list, the owner-or-admin read, and the public tracking view as functions.
- **`auth.dfy`** (`Auth`): `middleware/auth.js`.
  - Bearer token extraction through `split(' ')[1]`.
  - `protect`'s 401/404 decisions and `isAdmin`'s 403.

The database, the clock and external libraries are parameters:

- `ordered: seq<Id>` is the order in which the database returns documents. For the listing
  that is the sort order, `-createdAt` unless `sort` is given.
- `matches: (string, Shipment) -> bool` decides whether a document matches the rewritten
  filter text.
- `parseDate` is `new Date(...)`, returning None for an invalid date.
- `verify` is JWT verification; `findUser` is the user lookup.
- `now` is the clock. `newId` is the new ObjectId and `uuid` is the uuid generator's output.

The listing removes only `select`, `sort`, `page` and `limit` from the query before
building the filter (`controllers/adminController.js:17`). `trackingId`, `startDate` and
`endDate` stay in it and take part in the count as well. `GenericFilter` states this.

The count and the page query do not use the same conditions. The count
(`controllers/adminController.js:50`) sees the generic filter only. The page query then
calls `where`, which replaces conditions rather than adding to them: `where('trackingId', v)`
(line 61) replaces the filter's `trackingId` condition, and `where('createdAt').gte().lte()`
(line 56) overwrites its `$gte` and `$lte` bounds. `PageFilter` is the page query's
filter, and `CountCanMissThePage` shows a query whose count is 0 while its page holds a
document.

## Model

| member | source | states |
|---|---|---|
| Schema.EntryErrorsEmpty | models/Shipment.js:5-32 | a status history has no validation error exactly when every entry's `shipment` is present and in the 19-value enumeration |
| Schema.DefaultTrackingId | models/Shipment.js:35-39 | the default tracking id has min(8, length) characters, none of them a lower-case letter, each equal to the uuid's character up to case |
| Schema.NewShipment | models/Shipment.js:34-150 | create succeeds exactly when the body has no validation error, otherwise fails with exactly the failing paths; a created document is valid (every enumeration respected), has the given id and the body's owner; its addresses, package details and type are the body's; each defaulted field (tracking id, amount, status, payment status, both timestamps) is the body's value when given and its default otherwise; each history entry keeps the body's status and its timestamp or the creation time |
| Schema.NewShipmentDefaults | models/Shipment.js:45-149 | a body that leaves out all the defaulted fields gets status `order-received`, payment `pending`, amount 0, an empty history, the uuid-derived tracking id, and both timestamps equal to the creation time |
| Schema.PushStatusKeepsValid | controllers/adminController.js:112-115 | appending an allowed status to the history and setting it keeps a document valid |
| Schema.FindOneAndUpdate | models/Shipment.js:152-155 | an update changes only its own field and `updatedAt`, sets `updatedAt` to the current time, leaves the amount alone when none is given, and keeps a valid document valid when the update passes its validator |
| Store.ShipmentStore.constructor | models/Shipment.js:157 | a new collection is empty and valid |
| Store.InsertKeepsValid | models/Shipment.js:35-39 | inserting a valid document under a new id with an unused tracking id keeps the store valid, including unique tracking ids |
| Store.ReplaceKeepsValid | controllers/adminController.js:143-147 | replacing a document by a valid one with the same id and tracking id keeps the store valid |
| OperatorRewrite.JsonOfPlainField | controllers/adminController.js:23 | an object with one string field that needs no escaping is serialised as `{"key":"value"}` |
| OperatorRewrite.RewriteWordPair | controllers/adminController.js:26 | in `{"key":"value"}` with single-word key and value, each word gains a `$` exactly when it is an operator name |
| OperatorRewrite.Rewrite | controllers/adminController.js:26 | the rewritten text is longer by exactly the number of operator words |
| OperatorRewrite.RestoreRewrite | controllers/adminController.js:26 | deleting the inserted `$` signs gives back the original text, so the rewrite only inserts |
| OperatorRewrite.RewriteConcat | controllers/adminController.js:26 | two texts that do not meet inside a word are rewritten independently |
| OperatorRewrite.RewriteWord | controllers/adminController.js:26 | a whole word is prefixed with `$` exactly when it is `gt`, `gte`, `lt`, `lte` or `in` |
| OperatorRewrite.RewriteReachesValues | controllers/adminController.js:26 | the value `"in-transit"` is rewritten too, to `"$in-transit"`, because `-` is a word boundary |
| QueryParams.ParseIntOfDecimal | controllers/adminController.js:46-47 | `parseInt` reads back a number's decimal text and ignores what follows its digits |
| QueryParams.ParseIntMinus | controllers/adminController.js:46-47 | a leading minus sign negates the value of the digits after it |
| QueryParams.IntOr | controllers/adminController.js:46-47 | a value that `parseInt` reads as a non-zero number gives that number; an absent value, NaN or 0 gives the default; so the result is never 0 when the default is not 0 |
| QueryParams.ParseIntNaN | controllers/adminController.js:46-47 | `parseInt` gives NaN exactly when no digit follows the leading white space and one optional sign |
| QueryParams.PageParamAbsent | controllers/adminController.js:46-47 | an absent page is 1 and an absent limit is 25 |
| QueryParams.PageParamZero | controllers/adminController.js:46-47 | any page or limit value that `parseInt` reads as 0 falls back to 1 and 25 |
| QueryParams.PageParamNotNumeric | controllers/adminController.js:46-47 | any page or limit value that `parseInt` reads as NaN falls back to 1 and 25 |
| QueryParams.PageParamNumber | controllers/adminController.js:46-47 | any value that `parseInt` reads as a non-zero number, negative ones included, is the page or limit as it is |
| QueryParams.PageParamFallbackExamples | controllers/adminController.js:46-47 | `page=abc` gives page 1 and `limit=0` gives limit 25 |
| QueryParams.PageParamDecimal | controllers/adminController.js:46-47 | a positive decimal page or limit is taken as given |
| QueryParams.StartIndexNonNegative | controllers/adminController.js:48 | from page 1 on, with a positive limit, the start index is not negative |
| QueryParams.Window | controllers/adminController.js:52 | skip/limit returns at most `|limit|` documents, exactly min(`|limit|`, remaining) of them, consecutive from the start index |
| QueryParams.WindowIsSlice | controllers/adminController.js:52 | inside the sequence the window is the slice starting at the start index |
| QueryParams.PaginationOf | controllers/adminController.js:68-82 | `next` is present iff `page*limit < total` and then points to page+1; `prev` is present iff `(page-1)*limit > 0` and then points to page-1 |
| QueryParams.PrevIffNotFirstPage | controllers/adminController.js:68-82 | for a positive page and limit, `prev` is present iff the page is after the first, and `next` iff more than `limit` documents lie from the start index on |
| AdminController.KeepFields | controllers/adminController.js:17-20 | the kept fields are exactly the query's fields whose key is not dropped |
| AdminController.DeleteAfterKeep | controllers/adminController.js:20 | deleting one more key after dropping some equals dropping all of them at once |
| AdminController.GenericFilter | controllers/adminController.js:14-20 | the filter holds exactly the query's fields except `select`, `sort`, `page` and `limit`; `trackingId`, `startDate` and `endDate` stay |
| AdminController.DeleteRemoveFields | controllers/adminController.js:14-20 | the loop of deletes leaves exactly the generic filter |
| AdminController.LookupIsFirst | controllers/adminController.js:32-61 | the value read for a key is that of the first field with the key |
| AdminController.Matching | controllers/adminController.js:29 | the matched documents are exactly those of the collection that the filter matches, and no more than the collection holds |
| AdminController.MatchingConcat | controllers/adminController.js:29 | matching distributes over concatenation, so the matched documents keep the collection's order |
| AdminController.SplitError | controllers/adminController.js:32-40 | a TypeError is thrown exactly when `select` or `sort` is truthy and not a string; `select` is split first |
| AdminController.WithoutDateBounds | controllers/adminController.js:55-57 | conditions on other paths stay; a `createdAt` condition object loses its `gte`/`lte` bounds and keeps its other operators, and is removed when none are left; a `createdAt` value that is not an object is replaced |
| AdminController.PageFilter | controllers/adminController.js:54-62 | the page query's conditions: other paths as in the generic filter; no `trackingId` condition when a tracking id other than an object of `$`-operators is given, and the generic filter's one otherwise; `createdAt`, if left, a non-empty object without `gte`/`lte` bounds when both dates are given; the generic filter when neither is |
| AdminController.TrackingValues | controllers/adminController.js:60-62 | a string tracking id is matched as itself, an array of strings as any of its elements; an object or an array with other items gives no list of values |
| AdminController.RefinementOf | controllers/adminController.js:54-62 | the page query fails to cast exactly on an unreadable date (cast error on `createdAt`, first) or a tracking id that is neither a string, an array of strings nor an object of `$`-operators (on `trackingId`); otherwise a date range exists iff both dates are truthy, and a list of tracking ids iff the tracking id is truthy and not an object of operators |
| AdminController.RefinementOfAdmits | controllers/adminController.js:54-62 | the refinements admit a document iff it was created inside the inclusive date range when both dates are given, and its tracking id is among the given ones when a tracking id other than an object of operators is given |
| AdminController.Refined | controllers/adminController.js:54-62 | the refined documents are exactly those of the candidates that the refinements admit, and no more than the candidates |
| AdminController.RefinedConcat | controllers/adminController.js:54-62 | refining distributes over concatenation, so the refined documents keep the candidates' order |
| AdminController.ListingFromSpec | controllers/adminController.js:32-89 | the listing fails exactly on a `select` or `sort` without `split`, a refinement that cannot be cast, or a negative skip, in that order, each with its own error; otherwise it is the page of the candidates, holds at most `|limit|` documents, `count` is their number, each is a candidate admitted by the refinements, and the pagination is computed from the count's total |
| AdminController.ListingOfSpec | controllers/adminController.js:8-89 | for a collection, the pagination comes from the number of documents the generic filter matches, while every returned document is in the collection, matches the page query's filter and is admitted by the refinements; without refinements each returned document also matches the generic filter |
| AdminController.Page | controllers/adminController.js:52-89 | the page holds at most `|limit|` candidates, each admitted by the refinements, `count` is their number, and the pagination uses the count's total |
| AdminController.PageIsSlice | controllers/adminController.js:52-65 | the page is the slice of the refined candidates from the start index, of min(`|limit|`, remaining) documents, and empty past the end |
| AdminController.ListingWithoutRefinements | controllers/adminController.js:54-62 | without a date range or a tracking value (a tracking id given as an object of operators is allowed), with splittable `select`/`sort` and a non-negative skip, the listing is the unrefined page |
| AdminController.PageWithoutRefinements | controllers/adminController.js:46-65 | for a positive page and limit, the unrefined page is the slice of the candidates from `(page-1)*limit` and holds min(limit, candidates - (page-1)*limit) of them, or none past the end |
| AdminController.RefinementsDoNotReachTotal | controllers/adminController.js:50-75 | when the refinements exclude every matched document, the page is empty while `next` still announces another page |
| AdminController.ListingExample | controllers/adminController.js:45-82 | with 25 candidates and a total of 25, `page=2&limit=10` returns the 11th to 20th, with `next` page 3 and `prev` page 1 |
| AdminController.TrackingInCountFilter | controllers/adminController.js:14-26 | for `?trackingId=in` the count's filter text is `{"trackingId":"$in"}`: the rewrite reaches the value |
| AdminController.OperatorTrackingId | controllers/adminController.js:50-65 | a tracking id given as an object of `$`-operators, without a date range, adds no refinement: the page query's filter text is the count's, and the listing is the page of the documents the count matches |
| AdminController.NotEqualTrackingListing | controllers/adminController.js:8-89 | `?trackingId[$ne]=x` is answered with the first 25 of the documents the filter matches, not refused |
| AdminController.BoundsOnlyCreatedAt | controllers/adminController.js:55-57 | for `?createdAt[gte]=a&startDate=s&endDate=e` the page query's filter keeps no `createdAt` condition, only the two date fields |
| AdminController.TrackingInPageFilter | controllers/adminController.js:54-62 | for `?trackingId=in` the page query's filter text is `{}` and its refinement asks for the tracking id `in` |
| AdminController.CountCanMissThePage | controllers/adminController.js:50-89 | a document with tracking id `in` that the count's filter does not match is still returned for `?trackingId=in`, with `count` 1 and no `next`/`prev` although the total is 0 |
| AdminController.SetPageConditions | controllers/adminController.js:54-62 | the `where` calls turn the generic filter into the page query's filter |
| AdminController.PaginationResult | controllers/adminController.js:68-82 | the metadata built step by step is the one `PaginationOf` specifies |
| AdminController.GetAllShipments | controllers/adminController.js:8-93 | the method's answer, its TypeErrors, cast errors and negative skip included, is the listing `ListingOf` specifies for the collection in its sort order |
| AdminController.UpdateShipmentStatus | controllers/adminController.js:98-124 | a falsy status gives 400 before any lookup, then 404 for an unknown id, then a validation error for a status outside the enumeration; on success exactly that document gains the status and a history entry, `updatedAt` is unchanged, and the store stays valid; every failure leaves the store unchanged |
| AdminController.UpdatePaymentStatus | controllers/adminController.js:129-156 | a falsy payment status gives 400, then 404, then a validation error outside `pending`/`successful`; on success only `paymentStatus` and `updatedAt` change; every failure leaves the store unchanged |
| AdminController.UpdateAmount | controllers/adminController.js:160-187 | a negative amount gives 400 before any lookup, then 404; on success only `amount` (when given) and `updatedAt` change; every failure leaves the store unchanged |
| AdminController.DeleteShipment | controllers/adminController.js:192-211 | an unknown id gives 404 with the store unchanged; otherwise exactly that document is removed |
| ShipmentController.CreateShipment | controllers/shipmentController.js:7-20 | the owner is always the caller whatever the body says; validation errors come first, then a duplicate id, then a duplicate tracking id; on success the store gains exactly the valid new document and stays valid |
| ShipmentController.OwnedIds | controllers/shipmentController.js:27 | the ids kept are exactly those of the caller's documents, without repetition |
| ShipmentController.GetShipments | controllers/shipmentController.js:25-37 | the list contains every document the caller owns and nothing else |
| ShipmentController.GetShipmentsCount | controllers/shipmentController.js:27-32 | `count` equals the number of documents the caller owns |
| ShipmentController.GetShipment | controllers/shipmentController.js:42-62 | an unknown id gives 404 for everyone; a known one gives 403 iff the caller is neither its owner nor an admin, else the document |
| ShipmentController.GetShipmentAccess | controllers/shipmentController.js:50-53 | the owner and every admin can read a shipment; any other non-admin gets 403 |
| ShipmentController.ProjectHidesPrivateFields | controllers/shipmentController.js:75-97 | the tracking view does not depend on owner, amount, package, history or type |
| ShipmentController.ProjectKeepsPublicFields | controllers/shipmentController.js:75-97 | two equal tracking views come from documents equal on every public field |
| ShipmentController.FirstTracked | controllers/shipmentController.js:69 | the lookup returns a document holding the tracking id, or none when no document holds it |
| ShipmentController.TrackShipment | controllers/shipmentController.js:67-98 | 404 exactly when no document has the tracking id, otherwise the view of a document that has it |
| ShipmentController.TrackShipmentFindsTheOne | controllers/shipmentController.js:69 | because tracking ids are unique, tracking returns the view of the one document with that id whatever the database order |
| Auth.Split | middleware/auth.js:11 | splitting yields at least one piece, no piece contains the separator, and more than one piece exactly when the separator occurs |
| Auth.JoinSplit | middleware/auth.js:11 | joining the pieces with the separator gives back the header |
| Auth.SplitJoin | middleware/auth.js:11 | splitting a join of separator-free pieces gives back the pieces |
| Auth.BearerToken | middleware/auth.js:9-12 | a token is read exactly when the header is present, starts with `Bearer` and contains a space; the token contains no space |
| Auth.BearerTokenIsSecondWord | middleware/auth.js:9-12 | for any header whose first word starts with `Bearer`, the token is the second space-separated word, whatever follows it |
| Auth.BearerTokenOfHeader | middleware/auth.js:9-12 | `Bearer <token>` yields the token, and a bare `Bearer` yields no token |
| Auth.Protect | middleware/auth.js:6-35 | the request passes iff a token is present, verifies, and names an existing user, which is then attached; a missing user gives 404; every other failure, including a lookup that throws, gives 401 |
| Auth.IsAdmin | middleware/auth.js:38-42 | 403 iff the role is not `admin`, otherwise the same user |
| Auth.AdminGuardPasses | routes/adminRoutes.js:13-14 | an admin route passes iff the token verifies, its user exists and that user's role is `admin`; without a token it is 401 |

## Left out

- `createAdmin` and the `User` model are not part of this model. They create a user with role `admin` and do not touch shipments.
- Application setup, routing and the central error handler are not modelled. `app.js` and the routes only wire the operations together. Errors are returned as the `Error` values the handler receives, not as HTTP bodies.
- `select` projection is not modelled. The listing returns whole documents.
- Sorting is represented only by the parameter `ordered`. The sort engine and the order `-createdAt` itself are not modelled.
- How the database evaluates a filter is the parameter `matches` over the rewritten filter text. `JSON.parse`, query casting (apart from the page query's `createdAt` and `trackingId` conditions), unknown-field handling and the operators' meaning are not modelled.
- A database error during the listing is a cast error of the page query's `createdAt` or `trackingId` condition, or the negative skip. Other failures of `find` or `countDocuments`, including cast errors inside the filter text, are not modelled.
- Numbers are integers. Floating point amounts, weights and dimensions are not modelled.
- Timestamps are integers supplied by the caller. Date formatting is not modelled.
- Body values are typed as strings or integers. A status, payment status or amount of another JSON type, and the cast errors it would cause, are not modelled.
- Ids are plain strings. An id that is not a valid ObjectId, and the cast error `findById` raises for it, are not modelled.
- The requests are asynchronous, and concurrent requests can interleave between `findById` and the update. Each operation is modelled as one atomic step, so those races are not captured.
- `toUpperCase` is modelled on ASCII letters only. The uuid alphabet is hexadecimal digits and `-`.
- `JSON.stringify` is modelled on well-formed strings. Lone surrogates are not modelled.
- `console.log` in `protect` is left out.
- JWT verification is the parameter `verify`. Signature checking, expiry and the secret are not modelled.
- `JSON.stringify` writes integer-like keys (such as `"0"`) first, in ascending order, and then the other keys in insertion order. `Json` keeps the given order throughout, so a query with such keys is serialised in a different order.
- `page` and `limit` are unbounded integers here. In JavaScript they are doubles, so `(page - 1) * limit` and `page * limit` lose precision above 2^53.
- AdminController.UpdateAmount: an absent amount leaves the amount alone because Mongoose (version 6 and later) drops `undefined` keys from an update; older versions are not modelled.
- AdminController.WithoutDateBounds: a `createdAt` value that is not an object, an array included, is modelled as replaced by the range. A condition object that mixes operators with plain keys is not distinguished.
- AdminController.TrackingValues: a `trackingId` object that mixes `$`-operators with plain keys is modelled as the cast error on `trackingId`; Mongoose raises a plain error naming the key instead. Which `$`-operators Mongoose accepts, and the casting of their values, are left to `matches`.
- AdminController.PageFilterText: a `trackingId` object of operators is rewritten with the rest of the page query's filter text, while `where` hands Mongoose the value as it was parsed. The two agree whenever the object's JSON text holds no operator word; they differ for `{"$ne":"in"}` or `{"$in":[…]}`, where the rewrite adds a `$`.
- AdminController.PageFilter: the date range and the tracking ids that `where` sets are carried by `Admits`, conjoined with the matching of the filter text, rather than written into the filter text.
- QueryParams.ParseIntOfDecimal: the negative case is stated generally by `ParseIntMinus` rather than for each number's decimal text.
- `updateAmount` and `deleteShipment` are modelled, though the admin routes do not mount them.
