/**
 * The customer map: every vendor with a location becomes a marker, green
 * when its stock adds up to more than zero and red otherwise, with an info
 * window listing the vendor's address, note, stock and last update.
 */
module MapProjection {
  import opened Wrappers
  import opened Text
  import opened VendorRecord

  const VendorNameField: string := "vendorName"

  /** `{ id: doc.id, ...doc.data() }`, the part of it the map reads. */
  datatype Vendor = Vendor(
    id: string,
    vendorName: Option<string>,
    location: Option<Location>,
    items: Option<seq<Item>>,
    lastUpdated: Option<Timestamp>)

  datatype Color = Green | Red

  /** The stock part of the info window: one `name: quantity` entry per item, or the fallback. */
  datatype StockList = Listed(entries: seq<string>) | NoItemsAvailable

  datatype InfoContent = InfoContent(
    title: string,
    detailsId: string,
    address: string,
    note: Option<string>,
    stock: StockList,
    lastUpdated: string)

  datatype Marker = Marker(lat: Option<real>, lng: Option<real>, title: Option<string>, color: Color, info: InfoContent)

  /** The vendor as the map reads it from the vendor's stored document. */
  function VendorOf(id: string, doc: Document): Vendor {
    var name := if VendorNameField in doc && doc[VendorNameField].Text? then Some(doc[VendorNameField].text) else None;
    Vendor(id, name, StoredLocation(doc), StoredItems(doc), StoredTimestamp(doc))
  }

  /** `item.quantity || 0` */
  function QuantityOrZero(quantity: Option<int>): int {
    if quantity.Some? then quantity.value else 0
  }

  /** Every quantity counts as zero or more. */
  ghost predicate NonNegativeStock(items: seq<Item>) {
    forall i :: 0 <= i < |items| ==> QuantityOrZero(items[i].quantity) >= 0
  }

  /** Some item has a positive quantity. */
  ghost predicate HasStock(items: seq<Item>) {
    exists i :: 0 <= i < |items| && QuantityOrZero(items[i].quantity) > 0
  }

  /**
   * `items.reduce((sum, item) => sum + (item.quantity || 0), 0)`, folded from
   * the left. When no quantity is negative, the total is positive exactly
   * when some item has a positive quantity.
   */
  function SumQuantities(items: seq<Item>): (total: int)
    ensures NonNegativeStock(items) ==> total >= 0
    ensures NonNegativeStock(items) ==> (total > 0 <==> HasStock(items))
  {
    if items == [] then 0
    else
      var init := items[..|items| - 1];
      var last := items[|items| - 1];
      var total := SumQuantities(init) + QuantityOrZero(last.quantity);
      assert NonNegativeStock(items) ==> NonNegativeStock(init);
      assert HasStock(init) ==> HasStock(items) by {
        if HasStock(init) {
          var i :| 0 <= i < |init| && QuantityOrZero(init[i].quantity) > 0;
          assert items[i] == init[i];
        }
      }
      assert HasStock(items) && !HasStock(init) ==> QuantityOrZero(last.quantity) > 0 by {
        if HasStock(items) && !HasStock(init) {
          var i :| 0 <= i < |items| && QuantityOrZero(items[i].quantity) > 0;
          if i < |init| {
            assert init[i] == items[i];
          }
        }
      }
      total
  }

  /** `vendor.items ? <sum> : 0` */
  function TotalQuantity(items: Option<seq<Item>>): int {
    if items.Some? then SumQuantities(items.value) else 0
  }

  /** The green pin when the total is positive, the red pin otherwise. */
  function MarkerColor(total: int): Color {
    if total > 0 then Green else Red
  }

  /**
   * A vendor's pin is green exactly when some item has a positive quantity
   * (no quantity being negative); a missing or empty list gives red.
   */
  lemma ColorShowsStock(items: Option<seq<Item>>)
    requires items.Some? ==> NonNegativeStock(items.value)
    ensures MarkerColor(TotalQuantity(items)) == Green <==> items.Some? && HasStock(items.value)
    ensures (items.None? || items.value == []) ==> MarkerColor(TotalQuantity(items)) == Red
  {
  }

  /**
   * Quantities are not checked to be non-negative, and a negative one can
   * outweigh stock elsewhere: a vendor with `-3` of one item and `2` of
   * another has stock, yet its pin is red.
   */
  lemma NegativeQuantityCanTurnPinRed()
    ensures var items := [Item("a", Some(-3), None, None), Item("b", Some(2), None, None)];
      HasStock(items) && MarkerColor(TotalQuantity(Some(items))) == Red
  {
    var items := [Item("a", Some(-3), None, None), Item("b", Some(2), None, None)];
    assert QuantityOrZero(items[1].quantity) > 0;
    assert items[..1] == [items[0]] && items[..1][..0] == [];
  }

  /** `${item.quantity}` */
  function QuantityText(quantity: Option<int>): string {
    if quantity.Some? then IntToString(quantity.value) else "undefined"
  }

  /** `${item.name}: ${item.quantity}` */
  function EntryText(item: Item): string {
    item.name + ": " + QuantityText(item.quantity)
  }

  /**
   * The stock list of the info window: the fallback exactly when the items
   * are missing or empty, otherwise one entry per item in list order.
   */
  function StockListOf(items: Option<seq<Item>>): (stock: StockList)
    ensures stock.NoItemsAvailable? <==> items.None? || items.value == []
    ensures stock.Listed? ==> |stock.entries| == |items.value|
    ensures stock.Listed? ==> forall i :: 0 <= i < |stock.entries| ==> stock.entries[i] == EntryText(items.value[i])
  {
    if items.Some? && |items.value| > 0 then
      Listed(seq(|items.value|, i requires 0 <= i < |items.value| => EntryText(items.value[i])))
    else NoItemsAvailable
  }

  /**
   * An entry can be read back: the text before the `:` is the item's name
   * and `parseInt` of the rest is its quantity.
   */
  lemma {:induction false} EntryReadsBack(item: Item)
    requires ':' !in item.name && item.quantity.Some?
    ensures FirstField(EntryText(item)) == item.name
    ensures AfterFirstColon(EntryText(item)).Some?
    ensures ParseInt(AfterFirstColon(EntryText(item)).value) == item.quantity
  {
    var digits := IntToString(item.quantity.value);
    assert EntryText(item) == item.name + ":" + (" " + digits);
    SplitJoined(item.name, " " + digits);
    ParseIntSkipsSpace(digits);
    ParseIntOfIntToString(item.quantity.value);
  }

  /** The note line appears only for a non-empty note. */
  function NoteLine(location: Location): (line: Option<string>)
    ensures line.Some? <==> location.note.Some? && location.note.value != ""
    ensures line.Some? ==> line == location.note
  {
    if location.note.Some? && location.note.value != "" then location.note else None
  }

  /** `lastUpdated ? <formatted time> : 'N/A'`; formatting is the browser's and is a parameter. */
  function LastUpdatedText(time: Option<Timestamp>, format: Timestamp -> string): (text: string)
    ensures time.None? ==> text == "N/A"
    ensures time.Some? ==> text == format(time.value)
  {
    if time.Some? then format(time.value) else "N/A"
  }

  /** The info window of a located vendor. */
  function InfoFor(v: Vendor, format: Timestamp -> string): InfoContent
    requires v.location.Some?
  {
    InfoContent(
      Interpolated(v.vendorName),
      v.id,
      Interpolated(v.location.value.address),
      NoteLine(v.location.value),
      StockListOf(v.items),
      LastUpdatedText(v.lastUpdated, format))
  }

  /** The marker of a located vendor: its coordinates as stored, its colour from the total stock. */
  function MarkerFor(v: Vendor, format: Timestamp -> string): Marker
    requires v.location.Some?
  {
    Marker(v.location.value.lat, v.location.value.lng, v.vendorName,
      MarkerColor(TotalQuantity(v.items)), InfoFor(v, format))
  }

  /** What `forEach` places for one vendor: its marker when it has a location, nothing otherwise. */
  function Placed(v: Vendor, format: Timestamp -> string): (placed: seq<Marker>)
    ensures |placed| <= 1
  {
    if v.location.Some? then [MarkerFor(v, format)] else []
  }

  /** The outputs of `f` for each element of `s`, concatenated in order. */
  function FlatMap<T, U>(s: seq<T>, f: T -> seq<U>): seq<U> {
    if s == [] then [] else f(s[0]) + FlatMap(s[1..], f)
  }

  lemma {:induction false} FlatMapAppend<T, U>(a: seq<T>, b: seq<T>, f: T -> seq<U>)
    ensures FlatMap(a + b, f) == FlatMap(a, f) + FlatMap(b, f)
  {
    if a == [] {
      assert a + b == b;
    } else {
      assert (a + b)[0] == a[0] && (a + b)[1..] == a[1..] + b;
      FlatMapAppend(a[1..], b, f);
    }
  }

  /**
   * `vendors.forEach(v => { if (v.location) <place marker> })`: the markers
   * of the located vendors, in list order.
   */
  function Markers(vendors: seq<Vendor>, format: Timestamp -> string): (markers: seq<Marker>)
    ensures |markers| <= |vendors|
  {
    if vendors == [] then []
    else Placed(vendors[0], format) + Markers(vendors[1..], format)
  }

  /** `Markers` is the flat-map of `Placed` over the vendor list. */
  lemma {:induction false} MarkersAreFlatMap(vendors: seq<Vendor>, format: Timestamp -> string)
    ensures Markers(vendors, format) == FlatMap(vendors, v => Placed(v, format))
  {
    if vendors != [] {
      MarkersAreFlatMap(vendors[1..], format);
    }
  }

  /**
   * Vendors without a location are skipped, every located vendor gets its
   * marker, and no other marker appears.
   */
  lemma {:induction false} MarkersAreTheLocatedVendors(vendors: seq<Vendor>, format: Timestamp -> string)
    ensures forall m :: m in Markers(vendors, format) ==>
      exists v :: v in vendors && v.location.Some? && m == MarkerFor(v, format)
    ensures forall v :: v in vendors && v.location.Some? ==> MarkerFor(v, format) in Markers(vendors, format)
  {
    if vendors != [] {
      MarkersAreTheLocatedVendors(vendors[1..], format);
      assert forall v :: v in vendors[1..] ==> v in vendors;
      assert forall v :: v in vendors ==> v == vendors[0] || v in vendors[1..];
    }
  }

  /** Markers keep the vendors' order: the markers of `a + b` are those of `a`, then those of `b`. */
  lemma MarkersInOrder(a: seq<Vendor>, b: seq<Vendor>, format: Timestamp -> string)
    ensures Markers(a + b, format) == Markers(a, format) + Markers(b, format)
  {
    MarkersAreFlatMap(a + b, format);
    MarkersAreFlatMap(a, format);
    MarkersAreFlatMap(b, format);
    FlatMapAppend(a, b, v => Placed(v, format));
  }

  /** A single vendor yields its marker when it has a location and nothing otherwise. */
  lemma MarkersOfOne(v: Vendor, format: Timestamp -> string)
    ensures Markers([v], format) == if v.location.Some? then [MarkerFor(v, format)] else []
  {
    assert [v][1..] == [];
  }

  /** After the dashboard removes the location, the vendor is gone from the map. */
  lemma RemovedLocationLeavesMap(id: string, doc: Document, format: Timestamp -> string)
    ensures Markers([VendorOf(id, MergePatch(doc, ClearLocationPatch()))], format) == []
  {
    MarkersOfOne(VendorOf(id, MergePatch(doc, ClearLocationPatch())), format);
  }

  /**
   * After the dashboard appends an item with a positive quantity to a located
   * vendor whose quantities are not negative, the vendor's marker is green
   * and its stock list ends with the new item's entry.
   */
  lemma AddedStockShowsOnMap(id: string, doc: Document, item: Item, format: Timestamp -> string)
    requires StoredLocation(doc).Some?
    requires NonNegativeStock(ItemsOrEmpty(StoredItems(doc)))
    requires item.quantity.Some? && item.quantity.value > 0
    ensures var after := MergePatch(doc, ItemsPatch(ItemsOrEmpty(StoredItems(doc)) + [item]));
      var markers := Markers([VendorOf(id, after)], format);
      && |markers| == 1
      && markers[0].color == Green
      && markers[0].info.stock.Listed?
      && markers[0].info.stock.entries[|markers[0].info.stock.entries| - 1] == EntryText(item)
  {
    var items := ItemsOrEmpty(StoredItems(doc)) + [item];
    var after := MergePatch(doc, ItemsPatch(items));
    var v := VendorOf(id, after);
    assert v.items == Some(items);
    assert v.location.Some?;
    MarkersOfOne(v, format);
    assert items[..|items| - 1] == ItemsOrEmpty(StoredItems(doc));
    assert SumQuantities(items) >= item.quantity.value;
  }

  /**
   * Saving a note while no location is set stores a location that has only
   * the note; the code still builds a marker for it, with undefined
   * coordinates and the address "undefined".
   */
  lemma NoteOnlyLocationMarkerHasNoCoordinates(id: string, doc: Document, note: string, now: Timestamp, format: Timestamp -> string)
    requires StoredLocation(doc).None?
    ensures var after := MergePatch(doc, LocationPatch(WithNote(StoredLocation(doc), Some(note)), now));
      var markers := Markers([VendorOf(id, after)], format);
      && |markers| == 1
      && markers[0].lat.None? && markers[0].lng.None?
      && markers[0].info.address == "undefined"
  {
    var after := MergePatch(doc, LocationPatch(WithNote(StoredLocation(doc), Some(note)), now));
    MarkersOfOne(VendorOf(id, after), format);
  }
}
