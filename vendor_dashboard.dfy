/**
 * The vendor dashboard's handlers: the stock list (add, edit, delete) and the
 * location record (set from a geocode result, replace the note, remove the
 * note, remove the location). Each persisting handler merge-writes one field
 * group and changes the dashboard's own state only once the write succeeded,
 * so the dashboard never shows items or a location the store does not hold.
 */
module VendorDashboard {
  import opened Wrappers
  import opened VendorRecord

  /**
   * The quantity form field: empty, a number the vendor typed (already
   * parsed), or the stored quantity that editing an item copies in.
   */
  datatype QuantityInput = Blank | Typed(value: int) | Loaded(quantity: Option<int>)

  /**
   * JavaScript truthiness of the quantity field. Typed text is a non-empty
   * string; a copied-in quantity is a number, falsy when 0 or `undefined`.
   */
  predicate IsFilled(q: QuantityInput) {
    match q
    case Blank => false
    case Typed(_) => true
    case Loaded(n) => n.Some? && n.value != 0
  }

  /** `parseInt(newItemQuantity, 10)` of a filled field. */
  function ParsedQuantity(q: QuantityInput): int
    requires IsFilled(q)
  {
    match q
    case Typed(v) => v
    case Loaded(n) => n.value
  }

  /** The record `handleAddItem` builds: a name and a quantity, no prices. */
  function NewItem(name: string, q: QuantityInput): (item: Item)
    requires IsFilled(q)
    ensures item.name == name && item.quantity == Some(ParsedQuantity(q))
    ensures item.price.None? && item.pricePerDozen.None?
  {
    Item(name, Some(ParsedQuantity(q)), None, None)
  }

  /** The location `handleSetLocation` stores for the first geocode result. */
  function GeocodedLocation(address: string, note: string, at: LatLng): (loc: Location)
    ensures loc.address == Some(address) && loc.note == Some(note)
    ensures loc.lat == Some(at.lat) && loc.lng == Some(at.lng)
  {
    Location(Some(address), Some(note), Some(at.lat), Some(at.lng))
  }

  class Dashboard {
    const store: DocumentStore
    var items: seq<Item>
    var location: Option<Location>
    var selectedAddress: string
    var locationNote: string
    var newItemName: string
    var newItemQuantity: QuantityInput

    /** The items and location on screen are the ones the store holds. */
    ghost predicate Synced()
      reads this, store
    {
      && store.Valid()
      && items == ItemsOrEmpty(StoredItems(store.fields))
      && location == StoredLocation(store.fields)
    }

    /** Loading the signed-in vendor's document into the dashboard. */
    constructor(store: DocumentStore)
      requires store.Valid()
      ensures this.store == store && Synced()
      ensures selectedAddress == (if location.Some? then TextOrEmpty(location.value.address) else "")
      ensures locationNote == (if location.Some? then TextOrEmpty(location.value.note) else "")
      ensures newItemName == "" && newItemQuantity == Blank
    {
      this.store := store;
      items := ItemsOrEmpty(StoredItems(store.fields));
      location := StoredLocation(store.fields);
      match StoredLocation(store.fields) {
        case None =>
          selectedAddress := "";
          locationNote := "";
        case Some(loc) =>
          selectedAddress := TextOrEmpty(loc.address);
          locationNote := TextOrEmpty(loc.note);
      }
      newItemName := "";
      newItemQuantity := Blank;
    }

    /**
     * Submitting the new-item form. With both fields filled, the item is
     * appended and the whole list written; the form clears only on success.
     */
    method HandleAddItem(storeAvailable: bool) returns (outcome: Outcome)
      requires Synced()
      modifies this, store
      ensures Synced()
      ensures !(old(newItemName) != "" && IsFilled(old(newItemQuantity))) ==>
        outcome == Skipped && unchanged(this, store)
      ensures old(newItemName) != "" && IsFilled(old(newItemQuantity)) ==>
        outcome == (if storeAvailable then Saved else WriteFailed)
      ensures outcome == Saved ==>
        var added := old(items) + [NewItem(old(newItemName), old(newItemQuantity))];
        && items == added
        && store.fields == MergePatch(old(store.fields), ItemsPatch(added))
        && ChangesOnly(old(store.fields), store.fields, {ItemsField})
        && newItemName == "" && newItemQuantity == Blank
        && location == old(location) && selectedAddress == old(selectedAddress)
        && locationNote == old(locationNote)
      ensures outcome == WriteFailed ==> unchanged(this, store)
    {
      if newItemName != "" && IsFilled(newItemQuantity) {
        var updated := items + [NewItem(newItemName, newItemQuantity)];
        var ok := store.SetMerge(ItemsPatch(updated), storeAvailable);
        if ok {
          items := updated;
          newItemName := "";
          newItemQuantity := Blank;
          outcome := Saved;
        } else {
          outcome := WriteFailed;
        }
      } else {
        outcome := Skipped;
      }
    }

    /** Deleting the item at `index` (a position outside the list drops nothing). */
    method HandleDeleteItem(index: int, storeAvailable: bool) returns (outcome: Outcome)
      requires Synced()
      modifies this, store
      ensures Synced()
      ensures outcome == (if storeAvailable then Saved else WriteFailed)
      ensures outcome == Saved ==>
        && items == WithoutIndex(old(items), index)
        && store.fields == MergePatch(old(store.fields), ItemsPatch(items))
        && ChangesOnly(old(store.fields), store.fields, {ItemsField})
        && location == old(location) && selectedAddress == old(selectedAddress)
        && locationNote == old(locationNote)
        && newItemName == old(newItemName) && newItemQuantity == old(newItemQuantity)
      ensures outcome == WriteFailed ==> unchanged(this, store)
    {
      var updated := WithoutIndex(items, index);
      var ok := store.SetMerge(ItemsPatch(updated), storeAvailable);
      if ok {
        items := updated;
        outcome := Saved;
      } else {
        outcome := WriteFailed;
      }
    }

    /**
     * Editing the item at `index`: its name and quantity are copied into the
     * form, then the item is deleted. The form keeps the copy even when the
     * deletion fails; nothing puts the item back unless the form is submitted.
     */
    method HandleEditItem(index: int, storeAvailable: bool) returns (outcome: Outcome)
      requires Synced()
      requires 0 <= index < |items|
      modifies this, store
      ensures Synced()
      ensures newItemName == old(items)[index].name
      ensures newItemQuantity == Loaded(old(items)[index].quantity)
      ensures outcome == (if storeAvailable then Saved else WriteFailed)
      ensures items == if outcome == Saved then old(items)[..index] + old(items)[index + 1..] else old(items)
      ensures store.fields == if outcome == Saved then MergePatch(old(store.fields), ItemsPatch(items)) else old(store.fields)
      ensures location == old(location) && selectedAddress == old(selectedAddress)
      ensures locationNote == old(locationNote)
    {
      var toEdit := items[index];
      newItemName := toEdit.name;
      newItemQuantity := Loaded(toEdit.quantity);
      WithoutIndexSplices(items, index);
      outcome := HandleDeleteItem(index, storeAvailable);
    }

    /**
     * Saving the address: an empty address writes nothing; a geocode with no
     * result writes nothing; otherwise the first result's coordinates, the
     * address and the current note are written with the time of the write.
     */
    method HandleSetLocation(geocoded: seq<LatLng>, now: Timestamp, storeAvailable: bool) returns (outcome: Outcome)
      requires Synced()
      modifies this, store
      ensures Synced()
      ensures old(selectedAddress) == "" ==> outcome == Skipped
      ensures old(selectedAddress) != "" && geocoded == [] ==> outcome == NoGeocodeResult
      ensures old(selectedAddress) != "" && geocoded != [] ==>
        outcome == (if storeAvailable then Saved else WriteFailed)
      ensures outcome != Saved ==> unchanged(this, store)
      ensures outcome == Saved ==>
        var loc := GeocodedLocation(old(selectedAddress), old(locationNote), geocoded[0]);
        && location == Some(loc)
        && store.fields == MergePatch(old(store.fields), LocationPatch(loc, now))
        && ChangesOnly(old(store.fields), store.fields, {LocationField, LastUpdatedField})
        && items == old(items) && selectedAddress == old(selectedAddress)
        && locationNote == old(locationNote)
        && newItemName == old(newItemName) && newItemQuantity == old(newItemQuantity)
    {
      if selectedAddress == "" {
        outcome := Skipped;
      } else if geocoded == [] {
        outcome := NoGeocodeResult;
      } else {
        var updated := GeocodedLocation(selectedAddress, locationNote, geocoded[0]);
        var ok := store.SetMerge(LocationPatch(updated, now), storeAvailable);
        if ok {
          location := Some(updated);
          outcome := Saved;
        } else {
          outcome := WriteFailed;
        }
      }
    }

    /**
     * Saving the note: an empty note writes nothing; otherwise the location
     * is written with only its note replaced, together with the time.
     */
    method HandleAddNote(now: Timestamp, storeAvailable: bool) returns (outcome: Outcome)
      requires Synced()
      modifies this, store
      ensures Synced()
      ensures old(locationNote) == "" ==> outcome == Skipped
      ensures old(locationNote) != "" ==> outcome == (if storeAvailable then Saved else WriteFailed)
      ensures outcome != Saved ==> unchanged(this, store)
      ensures outcome == Saved ==>
        var loc := WithNote(old(location), Some(old(locationNote)));
        && location == Some(loc)
        && store.fields == MergePatch(old(store.fields), LocationPatch(loc, now))
        && ChangesOnly(old(store.fields), store.fields, {LocationField, LastUpdatedField})
        && items == old(items) && selectedAddress == old(selectedAddress)
        && locationNote == old(locationNote)
        && newItemName == old(newItemName) && newItemQuantity == old(newItemQuantity)
    {
      if locationNote == "" {
        outcome := Skipped;
      } else {
        var updated := WithNote(location, Some(locationNote));
        var ok := store.SetMerge(LocationPatch(updated, now), storeAvailable);
        if ok {
          location := Some(updated);
          outcome := Saved;
        } else {
          outcome := WriteFailed;
        }
      }
    }

    /** Removing the location: `location` is written as `null` and the address field cleared. */
    method HandleRemoveLocation(storeAvailable: bool) returns (outcome: Outcome)
      requires Synced()
      modifies this, store
      ensures Synced()
      ensures outcome == (if storeAvailable then Saved else WriteFailed)
      ensures outcome == WriteFailed ==> unchanged(this, store)
      ensures outcome == Saved ==>
        && location == None && selectedAddress == ""
        && store.fields == MergePatch(old(store.fields), ClearLocationPatch())
        && ChangesOnly(old(store.fields), store.fields, {LocationField})
        && items == old(items) && locationNote == old(locationNote)
        && newItemName == old(newItemName) && newItemQuantity == old(newItemQuantity)
    {
      var ok := store.SetMerge(ClearLocationPatch(), storeAvailable);
      if ok {
        location := None;
        selectedAddress := "";
        outcome := Saved;
      } else {
        outcome := WriteFailed;
      }
    }

    /**
     * Removing the note: the location is written with its note set to `null`
     * (the time of the write is not recorded) and the note field cleared.
     */
    method HandleRemoveLocationNote(storeAvailable: bool) returns (outcome: Outcome)
      requires Synced()
      modifies this, store
      ensures Synced()
      ensures outcome == (if storeAvailable then Saved else WriteFailed)
      ensures outcome == WriteFailed ==> unchanged(this, store)
      ensures outcome == Saved ==>
        var loc := WithNote(old(location), None);
        && location == Some(loc) && locationNote == ""
        && store.fields == MergePatch(old(store.fields), LocationOnlyPatch(loc))
        && ChangesOnly(old(store.fields), store.fields, {LocationField})
        && items == old(items) && selectedAddress == old(selectedAddress)
        && newItemName == old(newItemName) && newItemQuantity == old(newItemQuantity)
    {
      var updated := WithNote(location, None);
      var ok := store.SetMerge(LocationOnlyPatch(updated), storeAvailable);
      if ok {
        locationNote := "";
        location := Some(updated);
        outcome := Saved;
      } else {
        outcome := WriteFailed;
      }
    }
  }

  /**
   * The list after item `index` is edited and the form is submitted again
   * unchanged: the item is dropped from its place, and `handleAddItem`
   * appends a fresh record built from the copied-in name and quantity.
   */
  function Resubmitted(s: seq<Item>, index: int): seq<Item>
    requires 0 <= index < |s| && IsFilled(Loaded(s[index].quantity))
  {
    WithoutIndex(s, index) + [NewItem(s[index].name, Loaded(s[index].quantity))]
  }

  /**
   * Editing and resubmitting moves the item to the end of the list with its
   * name and quantity but without its prices; the other items keep their
   * order. Only an item without prices comes back as it was.
   */
  lemma {:induction false} ResubmittedMovesItemLast(s: seq<Item>, index: int)
    requires 0 <= index < |s| && IsFilled(Loaded(s[index].quantity))
    ensures var again := Resubmitted(s, index);
      && |again| == |s|
      && again[..index] == s[..index]
      && again[index..|s| - 1] == s[index + 1..]
      && again[|s| - 1].name == s[index].name
      && again[|s| - 1].quantity == s[index].quantity
      && again[|s| - 1].price.None? && again[|s| - 1].pricePerDozen.None?
    ensures s[index].price.None? && s[index].pricePerDozen.None? ==>
      multiset(Resubmitted(s, index)) == multiset(s)
  {
    WithoutIndexSplices(s, index);
    var again := Resubmitted(s, index);
    assert again == s[..index] + s[index + 1..] + [NewItem(s[index].name, Loaded(s[index].quantity))];
    if s[index].price.None? && s[index].pricePerDozen.None? {
      assert NewItem(s[index].name, Loaded(s[index].quantity)) == s[index];
      assert s == s[..index] + [s[index]] + s[index + 1..];
    }
  }

  /**
   * The vendor presses "Edit" on item `index` and then submits the form as
   * it was filled in, with both writes succeeding. A non-empty name and a
   * truthy quantity bring the item back as `Resubmitted` says; otherwise the
   * add-item guard skips and the item stays deleted.
   */
  method EditThenResubmit(d: Dashboard, index: int) returns (added: bool)
    requires d.Synced()
    requires 0 <= index < |d.items|
    modifies d, d.store
    ensures d.Synced()
    ensures added <==> old(d.items)[index].name != "" && IsFilled(Loaded(old(d.items)[index].quantity))
    ensures added ==> d.items == Resubmitted(old(d.items), index)
    ensures !added ==> d.items == WithoutIndex(old(d.items), index)
    ensures d.location == old(d.location)
  {
    WithoutIndexSplices(d.items, index);
    var edited := d.HandleEditItem(index, true);
    var outcome := d.HandleAddItem(true);
    added := outcome == Saved;
  }

  /**
   * Editing an item whose quantity is 0 or missing leaves the quantity field
   * empty for JavaScript, so submitting the form unchanged adds nothing.
   */
  lemma ZeroQuantityEditIsNotResubmittable(item: Item)
    requires item.quantity.None? || item.quantity.value == 0
    ensures !IsFilled(Loaded(item.quantity))
  {
  }
}
