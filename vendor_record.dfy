/**
 * The vendor record as the document store holds it: its field values, the
 * merge-write that every handler uses, the store itself, and the two record
 * operations built by spread and `filter` (dropping one stock item by index,
 * replacing the note of a location).
 */
module VendorRecord {
  import opened Wrappers

  /** A geocoder result, carried into the record unchanged and never computed on. */
  datatype LatLng = LatLng(lat: real, lng: real)

  /** The store's timestamp for "now"; opaque, only written and read back. */
  datatype Timestamp = Timestamp(seconds: int)

  /** One stock item; `price` and `pricePerDozen` are only carried. */
  datatype Item = Item(name: string, quantity: Option<int>, price: Option<real>, pricePerDozen: Option<real>)

  /**
   * A location record. Every field is optional because a record built by
   * spreading a `null` location carries only the fields written explicitly.
   */
  datatype Location = Location(address: Option<string>, note: Option<string>, lat: Option<real>, lng: Option<real>)

  /** The value of one top-level field of a vendor document. */
  datatype FieldValue =
    | Null
    | Text(text: string)
    | ItemList(items: seq<Item>)
    | LocationRecord(location: Location)
    | Stamp(time: Timestamp)
    | Other(code: int)  // a field this core never interprets (hours, email, ...)

  /** A vendor document: top-level field name to value. */
  type Document = map<string, FieldValue>

  const ItemsField: string := "items"
  const LocationField: string := "location"
  const LastUpdatedField: string := "lastUpdated"

  /** What a handler reports once it is done. */
  datatype Outcome = Saved | Skipped | NoGeocodeResult | WriteFailed

  /** `after` differs from `before` at most in the fields named in `touched`. */
  ghost predicate ChangesOnly(before: Document, after: Document, touched: set<string>) {
    forall k :: k !in touched ==> (k in before <==> k in after) && (k in before ==> before[k] == after[k])
  }

  /**
   * `setDoc(ref, patch, { merge: true })` on the top level: every field of
   * the patch replaces the stored one, every other field is kept.
   */
  function MergePatch(doc: Document, patch: Document): (r: Document)
    ensures r.Keys == doc.Keys + patch.Keys
    ensures forall k :: k in patch ==> r[k] == patch[k]
    ensures ChangesOnly(doc, r, patch.Keys)
  {
    doc + patch
  }

  /** `{ items: updatedItems }` */
  function ItemsPatch(items: seq<Item>): (p: Document)
    ensures p.Keys == {ItemsField}
  {
    map[ItemsField := ItemList(items)]
  }

  /** `{ location: updatedLocation }` */
  function LocationOnlyPatch(location: Location): (p: Document)
    ensures p.Keys == {LocationField}
  {
    map[LocationField := LocationRecord(location)]
  }

  /** `{ location: updatedLocation, lastUpdated: new Date() }` */
  function LocationPatch(location: Location, now: Timestamp): (p: Document)
    ensures p.Keys == {LocationField, LastUpdatedField}
  {
    map[LocationField := LocationRecord(location), LastUpdatedField := Stamp(now)]
  }

  /** `{ location: null }` */
  function ClearLocationPatch(): (p: Document)
    ensures p.Keys == {LocationField}
  {
    map[LocationField := Null]
  }

  /** `vendorData.items`, `None` when it is absent, `null` or not a list. */
  function StoredItems(doc: Document): Option<seq<Item>> {
    if ItemsField in doc && doc[ItemsField].ItemList? then Some(doc[ItemsField].items) else None
  }

  /** `vendorData.location`, `None` when it is absent or `null`. */
  function StoredLocation(doc: Document): Option<Location> {
    if LocationField in doc && doc[LocationField].LocationRecord? then Some(doc[LocationField].location) else None
  }

  /** `vendorData.lastUpdated`, `None` when it is absent. */
  function StoredTimestamp(doc: Document): Option<Timestamp> {
    if LastUpdatedField in doc && doc[LastUpdatedField].Stamp? then Some(doc[LastUpdatedField].time) else None
  }

  /** `list || []` */
  function ItemsOrEmpty(items: Option<seq<Item>>): seq<Item> {
    if items.Some? then items.value else []
  }

  /** `text || ''` for a field that may be `undefined` or `null`. */
  function TextOrEmpty(text: Option<string>): string {
    if text.Some? then text.value else ""
  }

  /**
   * `s.filter((_, i) => i !== index)`: a walk over the positions of `s`
   * that keeps every element whose position is not `index`.
   */
  function WithoutIndex<T>(s: seq<T>, index: int): (r: seq<T>)
    ensures |r| == if 0 <= index < |s| then |s| - 1 else |s|
  {
    if s == [] then []
    else WithoutIndex(s[..|s| - 1], index) + (if |s| - 1 == index then [] else [s[|s| - 1]])
  }

  /**
   * Dropping position `index` removes exactly that element and keeps the
   * others in order; an index outside the list leaves it as it is.
   */
  lemma {:induction false} WithoutIndexSplices<T>(s: seq<T>, index: int)
    ensures WithoutIndex(s, index) == if 0 <= index < |s| then s[..index] + s[index + 1..] else s
  {
    if s != [] {
      var init := s[..|s| - 1];
      WithoutIndexSplices(init, index);
      if |s| - 1 == index {
        assert init == s[..index] + s[index + 1..];
      } else if 0 <= index < |s| - 1 {
        assert init[..index] == s[..index];
        assert init[index + 1..] + [s[|s| - 1]] == s[index + 1..];
      } else {
        assert init + [s[|s| - 1]] == s;
      }
    }
  }

  /**
   * `{ ...location, note: note }`. Spreading an existing location keeps its
   * address and coordinates; spreading `null` contributes nothing, so the
   * result then holds the note alone.
   */
  function WithNote(location: Option<Location>, note: Option<string>): (r: Location)
    ensures r.note == note
    ensures location.Some? ==>
      r.address == location.value.address && r.lat == location.value.lat && r.lng == location.value.lng
    ensures location.None? ==> r.address.None? && r.lat.None? && r.lng.None?
  {
    match location
    case None => Location(None, note, None, None)
    case Some(l) => l.(note := note)
  }

  /**
   * The document of one vendor in the store. `created` tells whether the
   * document has been created; a missing document reads as empty.
   */
  class DocumentStore {
    var created: bool
    var fields: Document

    ghost predicate Valid()
      reads this
    {
      !created ==> fields == map[]
    }

    constructor(initial: Option<Document>)
      ensures Valid()
      ensures created == initial.Some?
      ensures fields == if initial.Some? then initial.value else map[]
    {
      created := initial.Some?;
      fields := if initial.Some? then initial.value else map[];
    }

    /**
     * `setDoc(ref, patch, { merge: true })`: creates the document when it is
     * missing. `storeAvailable` is whether the store call succeeds.
     */
    method SetMerge(patch: Document, storeAvailable: bool) returns (ok: bool)
      requires Valid()
      modifies this
      ensures Valid()
      ensures ok == storeAvailable
      ensures ok ==> created && fields == MergePatch(old(fields), patch)
      ensures !ok ==> unchanged(this)
    {
      ok := storeAvailable;
      if ok {
        created := true;
        fields := MergePatch(fields, patch);
      }
    }

    /** `updateDoc(ref, patch)`: fails when the document does not exist. */
    method Update(patch: Document, storeAvailable: bool) returns (ok: bool)
      requires Valid()
      modifies this
      ensures Valid()
      ensures ok == (storeAvailable && old(created))
      ensures !ok ==> unchanged(this)
      ensures created == old(created)
      ensures fields == if ok then MergePatch(old(fields), patch) else old(fields)
    {
      ok := storeAvailable && created;
      if ok {
        fields := MergePatch(fields, patch);
      }
    }
  }
}
