# A model of the boutique backend

The repository is a multi-tenant shop backend: boutiques with a catalog, customers who order and favorite, a seller
inbox, web push and customer accounts. Its write services check first and insert afterwards, with a unique constraint
as the real gate; its read selectors are join queries that are meant to agree with simple definitions. This project
models the database as one map per table and proves what those services and queries promise, for every state, every
input and every interleaving.

## How it is laid out

| files | what they hold |
|---|---|
| `Basics`, `Ordering`, `Texts`, `Spaces` | small facts about sequences, sets and sums; ORDER BY; text comparison |
| `Schema`, `Catalog`, `Writes` | the tables, and every committed write as a function on them |
| `Slugs`, `BuildExact`, `CatalogServices`, `ProductCreation`, `Favorites` | slug search, the inserts of one product, the retry race around them, update, delete, favorites |
| `Coherence`, `Isolation`, `Ledger` | what every write keeps: store coherence, tenancy, money and frozen snapshots |
| `Orders`, `OrderServices` | pricing, options, the answer of a placement that runs alone, and `place_order` as written |
| `Placement`, `PlacementResults`, `PlacementBounds`, `PlacementHistory`, `PlacementProgress`, `PlacementRecovery`, `PlacementWrites` | any number of placements at once, as a state machine over single queries |
| `Grid`, `Facets`, `CategoryIndex`, `Storefront`, `QueryIsolation` | the catalog queries and the storefront route |
| `Customers`, `Inbox`, `LiveInbox` | the fan-out counts; keyset polling, over any writes and while placements race |
| `Database`, `Push` | the mutable database object; the subscription table and the send-and-prune loops |
| `Users`, `Phone` | the registration race and the phone normaliser |

`Databases.Database` is the mutable object the imperative services run on. Its `rivals` are writes of other requests;
`Yield` lets any number of them land, and stands wherever a service that may be raced runs another query. `Writes.Apply`
is the specification of every write; the imperative services are proved equal to it, and the invariants are proved of
it.

## Assumptions

- Each query reads one committed state. The rows of a transaction become visible together when it commits, and an
  insert waits while another open transaction has inserted the same key. Deferred foreign keys are checked at commit.
- `update_product`, `delete_product` and the save of `set_status` are single atomic steps; so is one transaction of
  `create_product`.
- A row that `update_or_create` finds is locked until it is saved.
- Rows of equal rank follow their ids, so every query of one state breaks ties in the same way.
- Row ids are numbers whose order stands for the order of uuids. A uuid drawn for a row is an input; one that was
  handed out before makes the insert fail with an integrity error. `slugify`, the collation, upper-casing, email
  normalising and the clock are arbitrary functions or values.

## Where the code does less than its words

- The clause that answers an IntegrityError in `place_order` speaks of a lost key race, and for one it keeps its word:
  `PlacementRecovery.LoserFindsWinner`. But a commit refused for another cause reaches it too, and when nobody holds the
  key the lookup inside it finds nothing and its own error escapes, the outcome `Vanished` here.
  `PlacementRecovery.VanishedExactly` says exactly when, `DeletionStrands` and `VanishedRun` give such runs, and
  `OnlyCreatorsWrite` that nothing is written. If a rival committed the key in the meantime, the rival's order is
  returned.
- `create_product` re-raises an IntegrityError when the slug is free again by the time it looks. That is a constraint
  inside the payload, or a lost slug race whose winner has been deleted: the contract of `ProductCreation.CreateProduct`
  says so exactly, and `LeavingWinnerRaises` gives a schedule in which a perfectly good payload is refused,
  `LeavingWinnerExample` the first dress of a new shop.
- Unique emails are exact in the database. Uniqueness up to letter case is only what the advisory check gives, and
  `Users.CaseUniqueExactly` says in exactly which runs that is enough; `Users.RaceHappens` gives runs where it is not,
  `Users.RaceExample` one of them.
- The phone expression's digit class takes decimals of any script: `Phone.ForeignDigitsAccepted`. `Phone.AsciiExactly`
  says when the result is ASCII.
- Polling the inbox loses an order that lands at or below the cursor: `created_at` is set before the commit.
  `Inbox.PollingDelivers` says exactly which orders that is, `LiveInbox.MissedWereOpen` why, while placements race, and
  `Inbox.LateOrderExample` shows one.
- A browser that renews its push subscription while a broadcast is under way keeps its row, so a push still sent with
  the old keys and answered 410 prunes the renewed row. `Push.PrunesAnotherExactly` says exactly when a send removes a
  registration it was not addressed to, in any loop; `Push.RenewalPruned` is such a loop.

## Model

| member | source | states |
|---|---|---|
| Placement.RunKeeps | src/apps/orders/services.py:52-84 | in every run of any number of placements, with every other service writing between any two queries, the committed rows stay coherent and balanced, no two open transactions hold one key, and orders and lines committed before stay frozen |
| PlacementResults.OneOrderPerKey | src/apps/orders/services.py:52-84 | in every interleaving all requests of one (store, customer, key) that are answered with an order are answered with the same one, which is the only order of that key, and at most one of them reports creating it |
| PlacementResults.AnswersFollowCommits | src/apps/orders/services.py:62-84 | created=True is answered in the very step that commits the order, under the uuid drawn for it, with status "new", the contact sent and updated_at equal to created_at; created=False only with an order that was committed before |
| PlacementResults.DatedAtInsert | src/apps/orders/services.py:69-81 | the date of an order is the time of its insert, however much later its transaction commits |
| PlacementResults.OrdersConserved | src/apps/orders/services.py:69-84 | the order table grows by exactly one order per request that answers created=True; any other outcome adds nothing |
| PlacementResults.FailedKeyStaysFree | src/apps/orders/services.py:69-83 | a key that was free and that no request answered created=True for is still free, whatever ran and failed |
| PlacementProgress.RetryCommits | src/apps/orders/services.py:52-84 | after any such run a valid request with that key, undisturbed, commits its order |
| PlacementHistory.CreatedOrdersDelivered | src/apps/orders/services.py:31-45 | at every later point a created order has exactly one line per bag item: price and name of a row of a visible product of the store, then the url of the first image by position of that product (empty exactly when it has none), then its chosen options, three states the run really showed it in that order; the line links its product as long as it exists; the total is the sum of unit price times quantity over the lines, however prices moved between the reads, and every amount fits its column |
| PlacementRecovery.LoserFindsWinner | src/apps/orders/services.py:55-60 | from any reachable world, a request whose insert meets a taken key is at every later point of every run either about to look the order up or answered with an order of its key and created=False; one more step gives that answer |
| PlacementRecovery.VanishedExactly | src/apps/orders/services.py:82-83 | the lookup after an IntegrityError finds nothing if and only if that request's commit was refused because a bag product is gone or a drawn uuid was handed out before, and nobody holds the key when it looks |
| PlacementRecovery.OnlyCreatorsWrite | src/apps/orders/services.py:69-84 | no step of a request that has not answered created=True changes a committed row |
| PlacementRecovery.DeletionStrands | src/apps/orders/services.py:81-83 | any acceptable, undisturbed request with a free key ends that way, nothing written, when a product of its bag is deleted between pricing and commit |
| PlacementRecovery.VanishedRun | src/apps/orders/services.py:81-83 | one concrete such run, from a shop with a single dress |
| PlacementProgress.StepsRunOut | src/apps/orders/services.py:52-84 | every step of a request that is not waiting brings it strictly closer to an answer |
| PlacementProgress.SomeoneMoves | src/apps/orders/services.py:69-79 | waiting for another transaction's key never ends in a deadlock |
| PlacementProgress.AnswersAsAlone | src/apps/orders/services.py:52-84 | the interleaved machine refines the sequential service: undisturbed, a request gives the same answer and leaves the same tables |
| PlacementWrites.RunIsWrites | src/apps/orders/services.py:52-84 | the committed state of any interleaved run is that of a list of legal writes, so what holds of all such lists holds while placements race |
| OrderServices.PlaceOrder | src/apps/orders/services.py:52-84 | the service as written, savepoint and rollback included, gives the specified answer and leaves either the order with all its lines or nothing |
| OrderServices.TryPlace | src/apps/orders/services.py:69-82 | one transaction: a taken key refuses it before any line is read; otherwise the order with every line and its total, or a refusal that leaves every table as it was |
| OrderServices.AddLines | src/apps/orders/services.py:80-81 | the sum over the bag stops at the first refused item; on success the lines are the priced bag and the sum is their total |
| OrderServices.AddLine | src/apps/orders/services.py:31-45 | 404 exactly when the product is not a visible one of the store, 400 exactly when an option is not its own; otherwise one row is inserted, with the price and name of the product, the url of its first image by position or none, its options by axis, and a link to it, or nothing is |
| Orders.AcceptedAlone | src/apps/orders/services.py:52-84 | with a free key and fresh uuids a request running alone commits if and only if it is non-empty, every item is a visible product of the store with its own options and a quantity the column holds, and the total fits its column; otherwise the tables are untouched and the answer is that of the first item that cannot be sold: 404, 400, or the quantity's data error |
| Orders.PlacedRows | src/apps/orders/services.py:31-81 | an accepted placement adds the order with its customer, key, contact, status "new", the server's own price and one date, and per bag item one row with its product, quantity, current price and name, first image and options; nothing else changes |
| Orders.RepeatedAlone | src/apps/orders/services.py:48-64 | a key this customer already used at this store is answered with that order, and nothing is written |
| Orders.OptionsAccepted | src/apps/orders/services.py:17-28 | comparing counts accepts exactly the lists whose every id is an option of the product; everything else is a 400 |
| Orders.OptionSnapshot | src/apps/orders/services.py:28-28 | the snapshot has an entry for exactly the chosen axes, each with the value chosen on it that comes last by position; it has one entry per distinct id if and only if no axis is chosen twice |
| Ledger.EveryWriteKeepsBalance | src/apps/orders/services.py:80-81 | every write of every service keeps each order's total equal to the sum over its lines |
| Ledger.EveryWriteFreezesOrders | src/apps/orders/models.py:51-68 | every write leaves each line's name, price, quantity, image and options alone and nulls its product link exactly when the product goes; of an order only status and updated_at ever change |
| Coherence.EveryWriteKeepsCoherence | src/apps/products/services.py:29-98 | every write of every service keeps each row in the store of the row it hangs off, all unique constraints, prices in range and category slugs non-empty |
| Coherence.BuiltExactly | src/apps/products/services.py:55-80 | an accepted product adds exactly the payload's rows, one per image, axis and option, under a slug that was free, in a category of the store |
| Isolation.WritesStayHome | src/apps/products/services.py:29-98 | a write at one store leaves every row of every other store as it was |
| QueryIsolation.OtherStoresSeeNothing | src/apps/products/selectors.py:58-166 | a write at one store leaves the other stores' sorted grids, facet panels and category cards unchanged, though most joins do not mention the store |
| QueryIsolation.OtherStoresActivityStays | src/apps/boutiques/selectors.py:9-24 | nor does it change their customers, those customers' counts or their inbox |
| QueryIsolation.OtherStoresListsStay | src/apps/favorites/selectors.py:10-21 | nor a customer's favorites list or order history there |
| Slugs.CandidatesDistinct | src/apps/products/services.py:20-26 | the candidates are the base, then the base, a dash and a numeral (ASCII digits, no zero in front) that reads back as 2, 3, ...; no two coincide |
| CatalogServices.UniqueSlug | src/apps/products/services.py:20-26 | the search ends for every finite table and schedule of rivals with a slug no row of the store had when last probed: the base ("item" for an empty one) or the base, a dash and the numeral of its turn; every earlier candidate was taken at the start or brought by a rival; alone it is the first that no row of the store has, after at most as many rejections as there are taken slugs |
| CatalogServices.CreateCategory | src/apps/products/services.py:29-32 | the row is added under the slug the search comes to, every earlier candidate taken, or nothing is written; it is added exactly when name, slug and position fit, no category of the store has the slug by then and the uuid is new; a refusal not due to the row itself means a rival brought the slug since the call |
| ProductCreation.CreateProduct | src/apps/products/services.py:35-52 | in any schedule of rivals: each attempt uses the candidate its own search comes to; the answer is exactly the one its last transaction and the second look at the slug call for, so a lost race is retried and a 409 means five lost attempts; an IntegrityError is re-raised exactly when the slug is free again and either the payload is refused or the winner was deleted; exactly the payload is added under a slug that was free, or nothing; alone, success exactly when the payload is accepted under the first free candidate |
| ProductCreation.RaisedExactly | src/apps/products/services.py:48-51 | the trial meeting an IntegrityError and the slug being free afterwards means: refused while its slug was free, or the product holding the slug was deleted in between |
| ProductCreation.LeavingWinnerRaises | src/apps/products/services.py:48-51 | in any shop a rival that creates and deletes under the slug makes a payload that is acceptable before and after be refused |
| ProductCreation.LeavingWinnerExample | src/apps/products/services.py:48-51 | it happens to the first dress of a new shop |
| ProductCreation.LossesAreCommits | src/apps/products/services.py:43-52 | each lost attempt has a window of its own in which a rival really committed a product under its slug, so a 409 takes at least five such commits |
| CatalogServices.BuildProduct | src/apps/products/services.py:55-80 | inserting step by step, with each axis checked against the table, is refused exactly as specified and otherwise adds exactly the payload |
| BuildExact.AcceptedExactly | src/apps/products/services.py:55-80 | a payload is accepted exactly when every value fits its column and every constraint holds; a data error means some value is too large, an integrity error a negative number, an axis or value named twice, a taken slug, a used uuid or a category of another store |
| CatalogServices.AxisClash | src/apps/products/services.py:70-73 | on a new product an axis is refused exactly when the payload named it before |
| CatalogServices.UpdateProduct | src/apps/products/services.py:83-93 | a partial update is refused with the right error or changes the row as specified, and nothing else |
| CatalogServices.UpdateChangesOnlySupplied | src/apps/products/services.py:83-93 | an update is accepted exactly when product and named category are the store's, nothing is set to null and the new name and price fit, with an error of its own for a missing row and for a value too large; then every field present in the payload holds its value and no other one moved |
| CatalogServices.UpdatesCompose | src/apps/products/services.py:88-92 | two accepted partial updates in a row equal their overlay; only supplied fields change and repeating an update changes nothing more |
| CatalogServices.DeleteProduct | src/apps/products/services.py:96-98 | deletes the product with its images, axes, options and favorites and unlinks its order lines, or answers 404 |
| CatalogServices.DeletedExactly | src/apps/products/services.py:96-98 | row by row: the product's images, axes with their options and favorites go, its order lines lose the link, every other row stays as it was |
| CatalogServices.DeleteUndoesCreate | src/apps/products/services.py:55-98 | deleting a product just created takes back exactly its rows |
| Favorites.AddFavorite | src/apps/favorites/services.py:13-17 | with rivals between its queries: 404 exactly when the product is not a visible one of the store when looked up; otherwise the customer keeps the product afterwards, by a row that was there, all others untouched, or by one new row with store, customer, product and time, unless the insert is refused (product deleted, uuid used up, or a rival favorite that came and went) and the favorite is not there by then; alone exactly the specified write |
| Favorites.RemoveFavorite | src/apps/favorites/services.py:20-22 | exactly the rows of that customer, store and product go |
| Favorites.AddTwice | src/apps/favorites/services.py:13-17 | favoriting twice is one row |
| Favorites.RemoveUndoesAdd | src/apps/favorites/services.py:20-22 | removing takes back exactly what adding put there |
| Favorites.FavoriteProducts | src/apps/favorites/selectors.py:10-21 | the join without a store filter on products lists exactly the store's visible favorited products, each in one row |
| Favorites.FavoriteOrder | src/apps/favorites/selectors.py:10-21 | the list holds each of them exactly once, newest favorite first |
| Grid.Filtered | src/apps/products/selectors.py:58-87 | the chained joins with DISTINCT are the set of the store's visible products that meet every active filter, each product once: category slug; an option with one of the values on an axis named "Colour" in any letter case, and likewise "Size"; both price bounds; the text somewhere in name or description in any letter case |
| Grid.OptionsJoined | src/apps/products/selectors.py:78-81 | however many axes and options match, a pair of joins keeps exactly the products that have an axis of that name in any letter case holding a chosen option |
| Grid.ListProducts | src/apps/products/selectors.py:90-93 | the grid holds every matching product once, ordered by the chosen column with the newest first among equals; an unknown sort is "newest" |
| Grid.GridAtHome | src/apps/products/selectors.py:74-87 | on coherent tables the grid depends on the store's own rows only |
| Facets.ValueFacetIsGrid | src/apps/products/selectors.py:145-159 | a colour or size facet counts the products of the current grid that the grid for that value shows too; with nothing chosen on the axis that is that grid's whole length |
| Facets.CategoryFacetIsGrid | src/apps/products/selectors.py:139-144 | a category facet counts the products of the current grid that the grid for its slug shows too; unless another category is chosen that is that grid's length |
| Facets.PanelAgrees | src/apps/products/selectors.py:131-166 | the total is the grid's length; every colour and size is listed once, in text order, exactly when it leads to a non-empty part of the grid, with that count; under a collation that puts the empty string first a colour has no swatch exactly when every option of the grid that shows it has a blank one, and otherwise the greatest of theirs; sizes have none; the category counts add up to the total; the price span is attained and bounds every price |
| Facets.CategoryPanelAgrees | src/apps/products/selectors.py:139-163 | the rail lists exactly the categories that lead to a non-empty grid from here, each once, by position and then name, under its own slug and name and with that count |
| Facets.SpanIsTight | src/apps/products/selectors.py:137-137 | narrowing the price filter to the reported span changes nothing |
| Facets.BlankHexHidesNothing | src/apps/products/selectors.py:146-152 | the swatch is missing only when every option of the value has a blank one, and is otherwise the largest |
| CategoryIndex.CategoriesIndex | src/apps/products/selectors.py:106-128 | one card per category of the store, by position and then name, each with the category's own data |
| CategoryIndex.CardCountsGrid | src/apps/products/selectors.py:109-111 | a card's count is the length of the grid its slug opens |
| CategoryIndex.CardCover | src/apps/products/selectors.py:113-118 | a card has a cover exactly when a visible product of the category has an image, and no such image beats it by featured, newest product, position |
| Customers.CustomersAndCounts | src/apps/boutiques/selectors.py:16-24 | exactly the users with an order or a favorite at the store appear, and both counts are their own numbers of rows there, whatever the fan-out |
| Customers.CountsAddUp | src/apps/boutiques/selectors.py:16-24 | the order counts of the listed customers add up to the store's orders |
| Customers.CustomerList | src/apps/boutiques/selectors.py:22-23 | each listed once, by name |
| Inbox.CursorSplits | src/apps/orders/selectors.py:39-47 | on a fixed table, with or without a status: the pair cursor splits the store's orders of that status into unseen and seen; a timestamp alone keeps exactly the later orders and so loses exactly the unseen ties; the id alone loses none |
| Inbox.PollingDelivers | src/apps/orders/selectors.py:37-47 | over any run of writes and polls, with or without a status filter, no order is delivered twice and after a poll exactly the matching orders that are not missed are delivered; without a filter an order is missed only by landing at or below the cursor of its moment, and all are delivered if and only if none is |
| Inbox.LateOrderMissed | src/apps/orders/selectors.py:43-45 | an order that commits after a poll has seen a later-dated one is never delivered |
| Inbox.LateOrderExample | src/apps/orders/selectors.py:43-45 | one concrete such run at a new store |
| LiveInbox.MissedWereOpen | src/apps/orders/selectors.py:37-47 | while any number of placements race, under a clock that never goes back: after a look the poller holds each order once except the missed ones, and an order is missed only if its transaction had taken its date and was still open when a look moved the cursor past it, or another order carries the very same date and a larger id |
| Inbox.ItemCount | src/apps/orders/selectors.py:14-16 | the annotated count is the number of the order's lines, zero included |
| Push.BroadcastNewArrival | src/apps/push/services.py:62-72 | with other requests writing before every send: the rows listed are the store's, none is tried twice, without an uncaught error each is tried, a row answered 404 or 410 is gone for good, and every other change is another request's; undisturbed exactly the rows so answered go; an uncaught error stops the loop |
| Push.NotifyOrderStatus | src/apps/push/services.py:55-59 | the same for the rows of one customer at one store |
| Push.SetStatus | src/apps/orders/services.py:87-93 | there is a moment when the order has the new status and updated_at, its other fields and every other row as they were; from then on other requests' writes and the push over the customer's rows at the store, pruned as above, are all that happens, even when the push raises; undisturbed the order has that status at the end |
| Push.TableIsLatestMap | src/apps/push/services.py:22-32 | over any run of writes the table is a map from (store, endpoint) to the latest subscriber and keys |
| Push.Subscribe | src/apps/push/services.py:22-27 | with rivals between its queries: one registration of the browser is written, or, when the uuid is used up or a rival registration came and went, nothing |
| Push.PushKeepsLatestMap | src/apps/push/services.py:35-72 | and so it is over a push loop, the loop being its prunes interleaved with what others write |
| Push.PrunesAnotherExactly | src/apps/push/services.py:35-52 | for any loop, any writes of others and any of its sends: the send removes a registration other than the one it was addressed to if and only if it is answered 404 or 410, the listed row is still there, and the browser's last registration since the listing differs; it removes nothing else |
| Push.RenewalPruned | src/apps/push/services.py:48-50 | a single push sent with the old keys while its browser renews, answered 404 or 410, leaves that browser without a registration |
| Users.RegistrationSafe | src/apps/users/services.py:22-54 | in every interleaving no two users share an exact email or a phone; the table grows by exactly the users that were answered, with name, normalised email and phone as requested, so a 409 or 400 writes nothing; every 409 has a user to blame, every 400 a weak password |
| Users.AnsweredExactly | src/apps/users/services.py:22-54 | whatever runs afterwards: a request checked while its email, in any letter case, or its phone is taken has been answered 409; with a free identity a weak password 400, and no other one; an insert that meets an existing id, exact email or phone 409, a value too long a data error, and any other has stored its row |
| Users.CaseUniqueExactly | src/apps/users/services.py:22-54 | emails stay unique up to letter case in exactly the runs where no insert was overtaken by a case variant of its email |
| Users.NoOverlapNoRace | src/apps/users/services.py:22-54 | so they do whenever check-to-insert windows never overlap |
| Users.RaceHappens | src/apps/users/models.py:12-13 | two overlapping registrations that differ in letter case only do leave two such users |
| Users.RaceExample | src/apps/users/models.py:12-13 | one such run under ASCII case mapping, with "A@x" and "a@x" |
| Users.Registry.CreateUser | src/apps/users/services.py:26-54 | 409 when the email, in any letter case, or the phone is taken; else 400 for a weak password; else a data error for a value too long; else 409 when the id, exact email or phone is there; else the row with name, normalised email and phone is added and nothing else changes; this is what its job in the interleaved run does when undisturbed |
| Users.DomainLowered | src/apps/users/managers.py:15-15 | the part before the last "@" stays as typed, the part after it is lower-cased |
| Users.NormalizeFolds | src/apps/users/managers.py:15-15 | for any character mappings where upper-casing undoes lower-casing, normalising an address changes nothing that upper-casing shows |
| Users.NormalizingLawful | src/apps/users/managers.py:15-15 | so every such pair of mappings, ASCII among them, meets what the registration theorems ask of the rules |
| Phone.CleanExactly | src/apps/users/schemas.py:12-18 | an input is accepted as r if and only if r is +, 2, 5, 0, 7, one of 2, 3, 8, 9, and seven decimals, and the input less separators is r or its 07 spelling |
| Phone.OnlySeparatorsGo | src/apps/users/schemas.py:13-13 | what is removed is white space, dashes and parentheses; every other character stays in its place |
| Phone.CleanTwice | src/apps/users/schemas.py:12-18 | cleaning is idempotent and yields 13 characters |
| Phone.SeparatorsIgnored | src/apps/users/schemas.py:13-13 | a separator anywhere makes no difference |
| Phone.SpellingsMeet | src/apps/users/schemas.py:14-15 | the 07 and +2507 spellings of anything come out the same |
| Phone.ForeignDigitsAccepted | src/apps/users/schemas.py:16-16 | a number with Arabic-Indic digits is accepted and stored as typed |
| Phone.AsciiExactly | src/apps/users/schemas.py:16-16 | an accepted number is all ASCII exactly when its last seven digits are |
| Storefront.MultiRoundTrip | src/apps/products/controllers/storefront_controller.py:19-21 | joining values with commas and splitting them again is the identity exactly for values without commas, blanks or outer white space |
| Storefront.MultiPadded | src/apps/products/controllers/storefront_controller.py:19-21 | however the values between the commas are padded with white space, out come those that are not blank, without their padding, in their order |
| Storefront.MultiTwice | src/apps/products/controllers/storefront_controller.py:19-21 | splitting is idempotent |
| Storefront.Products | src/apps/products/controllers/storefront_controller.py:37-65 | the route answers the clamped page of the sorted grid and the grid's whole length, visible products only; a page is empty exactly past the end |
| Storefront.PagesCover | src/apps/products/controllers/storefront_controller.py:52-65 | for every limit, even one out of range, the pages in turn are the list |
| Storefront.GridPaged | src/apps/products/controllers/storefront_controller.py:52-65 | paging through an unchanged grid shows every matching product exactly once |

## Left out

- Users.NormalizeFolds: takes addresses without outer white space, which is all the request schema lets through, and case mappings that go character by character.
- CatalogServices.UpdateProduct: is one atomic step, so two overlapping updates that each save the whole row do not overwrite one another.
- The option's link to an image is not a column of the model; nothing modelled reads it.
- A uuid drawn twice within one product payload is refused at its first insert, not at the colliding one.
- Boutiques, memberships and permissions, the product detail page, addresses and password reset: each is settled by reading one branch.
- HTTP, authentication tokens, schema validation beyond the phone number, email and queued jobs, image upload and the network call of web push, which is any outcome here.
- Lengths of an order's key and contact fields: the request schema keeps them within their columns.
- Deleting users or boutiques, and edits through the admin site.
