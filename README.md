# Farm stand: vendor records, stock page and customer map

This project models the core of a farm-stand web application in Dafny. Vendors
keep one document each in a document store. The document holds the vendor's
stock items, a location (address, note, coordinates), the time of the last
location change and the weekly opening hours. Three screens work on that
document:

- **The vendor dashboard** (`VendorDashboard`) loads the signed-in vendor's
  document and offers seven handlers: add an item, edit an item, delete an
  item, set the location from a geocoded address, save the location note,
  remove the location, and remove the note. Each handler merge-writes one
  group of top-level fields (`setDoc` with `merge: true`). It changes the
  dashboard's own state only after the write succeeds, except that editing
  fills the add-item form first, whatever the outcome of the delete.
- **The vendor page** (`AdjustStock`) shows a vendor's stock with one pending
  quantity per row. "Update Quantity" commits one row with `updateDoc`. The
  page also shows the weekly hours as a table, with times converted from the
  24-hour clock to the 12-hour clock.
- **The customer map** (`MapProjection`) places one marker per vendor that has
  a location. The marker is green when the stock adds up to more than zero and
  red otherwise. Its info window shows the address, the note, one
  `name: quantity` line per item (or "No items available") and the time of the
  last update.

`VendorRecord` holds what the three share: the field values of a vendor
document, the merge-write, the record operations built by spread and `filter`,
and the store itself. The store is a `DocumentStore` object that knows whether
the document exists, so `setDoc` creates it and `updateDoc` fails on it. Every
store call takes a `storeAvailable` flag that says whether the call succeeds.
`Text` models the JavaScript string conversions the screens use:
`parseInt(s, 10)`, `${n}` for an integer, and the first two fields of
`split(':')`.

The handlers are methods of the `Dashboard` and `StockView` classes. Each one
states its whole new state, and each keeps the invariant `Synced()`: the items
and location on screen are the ones the store holds. The pure parts are
functions with lemmas. Among them:

- the 12-hour clock hour;
- the round trip from a stock-list line back to the item's name and quantity;
- the marker colour as a statement about the items;
- marker order under list concatenation.

Cross-screen lemmas follow a dashboard write through to the map.

Some behaviours of the code follow from JavaScript semantics. The model keeps
them as they are:

- Saving or removing a note while no location is set spreads `null`, so the
  stored location holds only a note. The map's code still builds a marker for
  it, with undefined coordinates and the address "undefined"
  (`MapProjection.NoteOnlyLocationMarkerHasNoCoordinates`).
- Editing an item deletes it and copies it into the add-item form. For a
  quantity of 0 the copied-in number is falsy, so the form cannot be
  resubmitted unchanged (`VendorDashboard.ZeroQuantityEditIsNotResubmittable`).
  A resubmitted item comes back at the end of the list with its name and
  quantity but without its price and price per dozen
  (`VendorDashboard.ResubmittedMovesItemLast`, `VendorDashboard.EditThenResubmit`).
- Quantities are not checked to be non-negative. A negative quantity counts
  in the map's total and can turn the pin of a vendor with stock red
  (`MapProjection.NegativeQuantityCanTurnPinRed`).
- Pending quantities on the vendor page are never cleared after an update.
- `hour % 12` keeps the sign of a negative hour, and a time with no `:` shows
  the minutes as "undefined".

## Model

| member | source | states |
|---|---|---|
| Text.NatToString | frontend/src/components/AdjustStock.js:17 | `${n}` of a natural number is a non-empty run of digits whose value is the number, with no leading zero except the single digit `0` for zero |
| Text.IntToString | frontend/src/components/Map.js:73 | an integer renders non-empty, starting with `-` or a digit |
| Text.DigitPrefix | frontend/src/components/AdjustStock.js:14 | the part `parseInt` reads is a prefix of digits followed by a non-digit or the end |
| Text.TrimStart | frontend/src/components/AdjustStock.js:14 | skipping leading white space drops only white-space characters and stops at the first other one |
| Text.ParseIntSkipsSpace | frontend/src/components/AdjustStock.js:14 | a leading space does not change what `parseInt` reads |
| Text.ParseIntOfDigits | frontend/src/components/AdjustStock.js:14 | `parseInt` (`ParseInt`, which reads the sign and digits after the white space with `ParseSigned`) of a run of digits is its decimal value |
| Text.ParseIntOfIntToString | frontend/src/components/Map.js:73 | `ParseInt` reads back every integer as printed by a template literal, both signs included |
| Text.FirstField | frontend/src/components/AdjustStock.js:13 | `split(':')[0]` is the colon-free prefix that ends at the first `:` or the end of the string |
| Text.AfterFirstColon | frontend/src/components/AdjustStock.js:13 | there is a remainder exactly when the string holds a `:`, and the string is first field + `:` + remainder |
| Text.SplitJoined | frontend/src/components/AdjustStock.js:13 | splitting `a:b` with a colon-free `a` gives back `a` as `split(':')[0]` and `b` as the remainder, and `b` as `split(':')[1]` (`SecondField`) when `b` is colon-free too |
| VendorRecord.MergePatch | frontend/src/components/VendorDashboard.js:82 | a merge-write keeps every stored field, sets every patched field to the patch's value, and changes no other field |
| VendorRecord.ItemsPatch | frontend/src/components/VendorDashboard.js:125 | the add and delete writes touch only `items` |
| VendorRecord.LocationPatch | frontend/src/components/VendorDashboard.js:104 | the note and location writes touch only `location` and `lastUpdated` |
| VendorRecord.LocationOnlyPatch | frontend/src/components/VendorDashboard.js:175 | removing the note touches only `location` |
| VendorRecord.ClearLocationPatch | frontend/src/components/VendorDashboard.js:159 | removing the location touches only `location` |
| VendorRecord.WithoutIndex | frontend/src/components/VendorDashboard.js:148 | filtering out one position shortens the list by one exactly when the position is in range |
| VendorRecord.WithoutIndexSplices | frontend/src/components/VendorDashboard.js:148 | the filter removes exactly the element at the index and keeps the rest in order; an index out of range keeps the whole list |
| VendorRecord.WithNote | frontend/src/components/VendorDashboard.js:100-103 | the spread sets the note, keeps address and coordinates of an existing location, and gives a note-only location when the location is `null` |
| VendorRecord.DocumentStore.constructor | frontend/src/components/VendorDashboard.js:46-47 | a store starts from an existing document or from none, and a missing document reads as empty |
| VendorRecord.DocumentStore.SetMerge | frontend/src/components/VendorDashboard.js:82 | `setDoc` with merge succeeds when the store is reachable, creates the document and merges the patch; on failure nothing changes |
| VendorRecord.DocumentStore.Update | frontend/src/components/AdjustStock.js:100 | `updateDoc` succeeds only on an existing document, merges the patch, never creates the document, and changes nothing on failure |
| VendorDashboard.NewItem | frontend/src/components/VendorDashboard.js:120-123 | a new item has the form's name and parsed quantity and no prices |
| VendorDashboard.GeocodedLocation | frontend/src/components/VendorDashboard.js:75-80 | the stored location has the address, the current note and the first geocode result's coordinates |
| VendorDashboard.Dashboard.constructor | frontend/src/components/VendorDashboard.js:46-56 | loading shows the stored items (or none) and the stored location, with its address and note in the form fields |
| VendorDashboard.Dashboard.HandleAddItem | frontend/src/components/VendorDashboard.js:116-135 | with name and quantity filled (`IsFilled` is the truthiness of the quantity field), the item is appended and only `items` is written; the form clears only on success; otherwise nothing changes |
| VendorDashboard.Dashboard.HandleDeleteItem | frontend/src/components/VendorDashboard.js:146-155 | the list without the item at the index is written to `items` and shown; on failure nothing changes |
| VendorDashboard.Dashboard.HandleEditItem | frontend/src/components/VendorDashboard.js:138-143 | the item's name and quantity go into the form even if the deletion fails, and the item is removed from list and store |
| VendorDashboard.Dashboard.HandleSetLocation | frontend/src/components/VendorDashboard.js:66-94 | an empty address or a geocode without result writes nothing; otherwise the geocoded location and the time are written and shown |
| VendorDashboard.Dashboard.HandleAddNote | frontend/src/components/VendorDashboard.js:96-113 | an empty note writes nothing; otherwise the location with its note replaced and the time are written and shown |
| VendorDashboard.Dashboard.HandleRemoveLocation | frontend/src/components/VendorDashboard.js:157-167 | `location` becomes `null` in store and on screen and the address field clears; items stay |
| VendorDashboard.Dashboard.HandleRemoveLocationNote | frontend/src/components/VendorDashboard.js:169-183 | the location is written with a `null` note and without touching `lastUpdated`, and the note field clears |
| VendorDashboard.ResubmittedMovesItemLast | frontend/src/components/VendorDashboard.js:118-124 | after an edit and an unchanged resubmission (`Resubmitted`), the list has the same length and the other items in order; the edited item is last with its name and quantity and no prices; only an item without prices comes back as it was (same multiset) |
| VendorDashboard.EditThenResubmit | frontend/src/components/VendorDashboard.js:138-143 | running `HandleEditItem` then `HandleAddItem` with both writes succeeding re-adds the item exactly when its name is non-empty and its quantity truthy, giving `Resubmitted`; otherwise the item stays deleted |
| VendorDashboard.ZeroQuantityEditIsNotResubmittable | frontend/src/components/VendorDashboard.js:118 | after editing an item with quantity 0 or none, the add-item guard rejects the unchanged form (`IsFilled` models the guard's truthiness test) |
| AdjustStock.Hour12 | frontend/src/components/AdjustStock.js:16 | the hour modulo 12, or 12 when that is 0 or `NaN`: 12 for `NaN`, in 1..12 for a non-negative hour, 12 or in -11..-1 for a negative one, and always congruent to the hour mod 12, which fixes the value |
| AdjustStock.ClockHours | frontend/src/components/AdjustStock.js:15-16 | every 24-hour clock hour maps to the right 12-hour hour (`Hour12`) and half of the day (`Meridiem`, `hour >= 12 ? 'PM' : 'AM'`) |
| AdjustStock.ConvertTo12Hour | frontend/src/components/AdjustStock.js:11-18 | an empty or missing time reads `Open`; every other time gives a text that contains `:` |
| AdjustStock.ConvertHourMinute | frontend/src/components/AdjustStock.js:13-17 | for `hh:mm` with an all-digit hour and minutes without `:`, the result is the 12-hour hour, `:`, the minutes as given, and AM/PM of the hour |
| AdjustStock.HoursDisplay | frontend/src/components/AdjustStock.js:160-178 | no hours gives the notice; otherwise there are seven rows in weekday order, a cell (`HoursCell`) reads `Closed` exactly when the day is closed, and open days show both times converted |
| AdjustStock.WithQuantity | frontend/src/components/AdjustStock.js:92-96 | the item at the index gets the new quantity and keeps its name and prices; every other item and the length stay |
| AdjustStock.CommitKeepsShownQuantities | frontend/src/components/AdjustStock.js:145 | the input of a row shows the pending entry if there is one and the stored quantity otherwise (`Shown`, read by `StockView.DisplayedQuantity`); after a commit every row shows the quantity it showed before, and the committed item stores what was shown |
| AdjustStock.StockView.constructor | frontend/src/components/AdjustStock.js:45-47 | the page shows the stored items (or none) and has no pending edits |
| AdjustStock.StockView.HandleQuantityChange | frontend/src/components/AdjustStock.js:80-85 | typing sets the row's pending entry and leaves every other entry |
| AdjustStock.StockView.HandleUpdateClick | frontend/src/components/AdjustStock.js:87-108 | without a pending entry nothing happens; otherwise the list with that quantity replaced is written with `updateDoc`, which fails on a missing document; pending entries stay |
| MapProjection.SumQuantities | frontend/src/components/Map.js:49 | the sum of each item's quantity, or 0 when it is missing (`QuantityOrZero`): with no negative quantity, the total is non-negative and positive exactly when some item has a positive quantity |
| MapProjection.ColorShowsStock | frontend/src/components/Map.js:49-52 | with no negative quantity, the pin colour (`MarkerColor` of `TotalQuantity`, `vendor.items ? <sum> : 0`) is green exactly when some item has positive stock; missing or empty items give red |
| MapProjection.StockListOf | frontend/src/components/Map.js:72-75 | the fallback appears exactly when items are missing or empty; otherwise there is one `name: quantity` entry (`EntryText`) per item, in order |
| MapProjection.EntryReadsBack | frontend/src/components/Map.js:73 | for a name without `:` and a present quantity, a stock entry (`EntryText`) splits back into the item's name and, via `parseInt`, its quantity |
| MapProjection.NoteLine | frontend/src/components/Map.js:70 | the note line appears exactly for a non-empty note and shows it |
| MapProjection.LastUpdatedText | frontend/src/components/Map.js:77 | a missing time shows `N/A`; a present one is formatted |
| MapProjection.Placed | frontend/src/components/Map.js:48-61 | one vendor places at most one marker |
| MapProjection.FlatMapAppend | frontend/src/components/Map.js:47 | walking a list in order distributes over concatenation |
| MapProjection.Markers | frontend/src/components/Map.js:47-48 | there are never more markers than vendors |
| MapProjection.MarkersAreFlatMap | frontend/src/components/Map.js:47-48 | the markers are the per-vendor placements concatenated in list order |
| MapProjection.MarkersAreTheLocatedVendors | frontend/src/components/Map.js:47-48 | every marker is the `MarkerFor` of a located vendor (its stored coordinates, its name as title, the colour of its total stock and the `InfoFor` info window), and every located vendor has its marker |
| MapProjection.MarkersInOrder | frontend/src/components/Map.js:47 | the markers of two lists in sequence are the markers of each, in order |
| MapProjection.MarkersOfOne | frontend/src/components/Map.js:48 | a single vendor places its marker when located and nothing otherwise |
| MapProjection.RemovedLocationLeavesMap | frontend/src/components/Map.js:48 | after the location is removed (`location: null`), the vendor read back from its document (`VendorOf`, `{ id, ...doc.data() }`) has no marker |
| MapProjection.AddedStockShowsOnMap | frontend/src/components/Map.js:49-52 | with no negative quantity stored, after an item with positive quantity is added, the vendor's (`VendorOf`) marker (`MarkerFor`) is green and its info window's stock list (`InfoFor`) ends with the new entry |
| MapProjection.NoteOnlyLocationMarkerHasNoCoordinates | frontend/src/components/Map.js:54-55 | for a note saved without a location, the code builds a marker (`MarkerFor`) with undefined coordinates and an info window (`InfoFor`) whose address reads "undefined" |
| MapProjection.NegativeQuantityCanTurnPinRed | frontend/src/components/Map.js:49-52 | negative quantities are summed too: items of quantity -3 and 2 have stock, yet the pin is red |

## Left out

- Sign-in, e-mail verification, routing, password change, QR codes and sign-up: they are outside this core.
- The geocoder and `getLatLng` are not modelled. Their result enters `HandleSetLocation` as the parameter `geocoded`, a list of coordinates.
- A failed geocoder call is not kept apart from an empty result; both mean that nothing is written.
- Success and failure of the document store become the parameter `storeAvailable`. Requests that overlap in time are not modelled.
- The date `new Date()` is the parameter `now`. The browser's date formatting is the parameter `format` of `MapProjection.LastUpdatedText`.
- Prices are carried as optional reals and never computed on. Their `toFixed(2)` formatting and the `pricePerDozen !== null` display test are not modelled, and an absent price is not kept apart from a `null` one.
- Integers are unbounded. Quantities beyond 2^53, where JavaScript numbers lose precision, are not modelled.
- The vendor name, the e-mail address, the `isEditing` flags, alerts and console output are not modelled. They change nothing in the store.
- VendorDashboard.Dashboard.constructor: a stored location without an address leaves the address field `undefined` in the code. The model puts "" there, which every handler treats the same way.
- VendorDashboard.Dashboard.HandleAddItem: the quantity field holds the already-parsed number the vendor typed. `parseInt` of arbitrary form text, which can give `NaN`, is not modelled here.
- VendorDashboard.Dashboard.HandleEditItem: it requires an index inside the list. The code reads `items[index].name` and throws on any other index.
- The handlers assume a signed-in user (`user.uid`). A handler called with `user` still `null` throws before writing, and this is not modelled.
- AdjustStock.StockView.HandleQuantityChange: pending quantities are integers. A cleared input gives `parseInt('') = NaN`, which the code would store as the quantity, and this is not modelled.
- AdjustStock.HoursDisplay: it requires all seven weekday keys when hours exist. The code reads `hours[day].closed` and throws when a day is missing.
- The Maps SDK's handling of a marker whose `lat` and `lng` are undefined is not modelled. `MapProjection.Markers` lists such a marker as the code builds it, and what the SDK then draws or throws is outside the source.
- The vendor page's own map with a single marker (AdjustStock.js lines 65-78) is not modelled, nor is the way the page shows the address and note.
- Editing opening hours happens on another screen and is not part of this model.
