/**
 * The vendor detail page: the 24-hour to 12-hour conversion of opening
 * times, the weekly hours table, and the stock view whose pending quantity
 * edits are committed one item at a time.
 */
module AdjustStock {
  import opened Wrappers
  import opened Text
  import opened VendorRecord

  /**
   * `hour % 12 || 12`: JavaScript's `%` keeps the sign of the dividend, and
   * both `0` and `NaN` (here `None`) are falsy, so both become 12.
   */
  function Hour12(hour: Option<int>): (h: int)
    ensures hour.None? ==> h == 12
    ensures hour.Some? && hour.value >= 0 ==> 1 <= h <= 12
    ensures hour.Some? && hour.value < 0 ==> h == 12 || -11 <= h <= -1
    ensures hour.Some? ==> (hour.value - h) % 12 == 0
  {
    match hour
    case None => 12
    case Some(v) =>
      var rem := if v >= 0 then v % 12 else -((-v) % 12);
      if rem == 0 then 12 else rem
  }

  /** `hour >= 12 ? 'PM' : 'AM'`; `NaN >= 12` is false. */
  function Meridiem(hour: Option<int>): string {
    if hour.Some? && hour.value >= 12 then "PM" else "AM"
  }

  /**
   * `convertTo12Hour`: an empty or missing time reads `Open`; otherwise the
   * hour before the first `:` is turned into a 12-hour clock hour and the
   * text after it is copied as the minutes.
   */
  function ConvertTo12Hour(time: Option<string>): (r: string)
    ensures (time.None? || time.value == "") ==> r == "Open"
    ensures time.Some? && time.value != "" ==> ':' in r
  {
    if time.None? || time.value == "" then "Open"
    else
      var hour := ParseInt(FirstField(time.value));
      var shown := IntToString(Hour12(hour));
      var r := shown + ":" + Interpolated(SecondField(time.value)) + " " + Meridiem(hour);
      assert r[|shown|] == ':';
      r
  }

  /** The clock hour and half of the day for each hour of a 24-hour time. */
  lemma ClockHours(v: int)
    requires 0 <= v <= 23
    ensures v == 0 ==> Hour12(Some(v)) == 12 && Meridiem(Some(v)) == "AM"
    ensures 1 <= v <= 11 ==> Hour12(Some(v)) == v && Meridiem(Some(v)) == "AM"
    ensures v == 12 ==> Hour12(Some(v)) == 12 && Meridiem(Some(v)) == "PM"
    ensures 13 <= v ==> Hour12(Some(v)) == v - 12 && Meridiem(Some(v)) == "PM"
  {
  }

  /**
   * For a time `hh:mm` whose hour is a run of digits, the result is the
   * 12-hour clock hour, then `:` and the minutes text exactly as given, then
   * the half of the day.
   */
  lemma ConvertHourMinute(hh: string, mm: string)
    requires 1 <= |hh| && AllDigits(hh) && ':' !in mm
    ensures var v := DigitsValue(hh);
      ConvertTo12Hour(Some(hh + ":" + mm))
      == IntToString(Hour12(Some(v))) + ":" + mm + " " + Meridiem(Some(v))
  {
    assert ':' !in hh by {
      forall i | 0 <= i < |hh| ensures hh[i] != ':' {
        assert IsDigit(hh[i]);
      }
    }
    SplitJoined(hh, mm);
    ParseIntOfDigits(hh);
  }

  /** One day of the week in the vendor's `hours` map. */
  datatype DayHours = DayHours(open: Option<string>, close: Option<string>, closed: bool)

  /** The row keys of the hours table, in display order. */
  const Weekdays: seq<string> := ["Mon", "Tues", "Weds", "Thurs", "Fri", "Sat", "Sun"]

  datatype HoursRow = HoursRow(day: string, opens: string, closes: string)

  /** The hours section: a seven-row table, or the not-available notice when `hours` is `null`. */
  datatype HoursView = NotAvailable | Table(rows: seq<HoursRow>)

  /** The table reads `hours[day]` for every weekday key. */
  predicate HasAllWeekdays(hours: map<string, DayHours>) {
    forall i :: 0 <= i < |Weekdays| ==> Weekdays[i] in hours
  }

  function HoursCell(day: DayHours, time: Option<string>): string {
    if day.closed then "Closed" else ConvertTo12Hour(time)
  }

  function HoursRowOf(day: string, hours: DayHours): HoursRow {
    HoursRow(day, HoursCell(hours, hours.open), HoursCell(hours, hours.close))
  }

  /**
   * The hours table: one row per weekday key in order; a cell reads
   * `Closed` exactly when the day is closed, and an open day shows its
   * opening and closing times converted to the 12-hour clock.
   */
  function HoursDisplay(hours: Option<map<string, DayHours>>): (view: HoursView)
    requires hours.Some? ==> HasAllWeekdays(hours.value)
    ensures view.NotAvailable? <==> hours.None?
    ensures view.Table? ==> |view.rows| == |Weekdays|
    ensures view.Table? ==> forall i :: 0 <= i < |view.rows| ==>
      var day := hours.value[Weekdays[i]];
      && view.rows[i].day == Weekdays[i]
      && (view.rows[i].opens == "Closed" <==> day.closed)
      && (view.rows[i].closes == "Closed" <==> day.closed)
      && (!day.closed ==> view.rows[i].opens == ConvertTo12Hour(day.open))
      && (!day.closed ==> view.rows[i].closes == ConvertTo12Hour(day.close))
  {
    if hours.None? then NotAvailable
    else
      var rows := seq(|Weekdays|, i requires 0 <= i < |Weekdays| => HoursRowOf(Weekdays[i], hours.value[Weekdays[i]]));
      assert ':' !in "Closed";
      Table(rows)
  }

  /** The quantity shown for item `index`: the pending edit if there is one, else the stored quantity. */
  function Shown(items: seq<Item>, pending: map<int, int>, index: int): Option<int>
    requires 0 <= index < |items|
  {
    if index in pending then Some(pending[index]) else items[index].quantity
  }

  /**
   * `{ ...items[index], quantity: q }` at `index`: the item keeps its name
   * and prices, every other item and the length stay as they were.
   */
  function WithQuantity(items: seq<Item>, index: int, q: int): (r: seq<Item>)
    requires 0 <= index < |items|
    ensures |r| == |items|
    ensures r[index].quantity == Some(q) && r[index].name == items[index].name
    ensures r[index].price == items[index].price && r[index].pricePerDozen == items[index].pricePerDozen
    ensures forall j :: 0 <= j < |items| && j != index ==> r[j] == items[j]
  {
    items[index := items[index].(quantity := Some(q))]
  }

  /**
   * Committing the pending quantity of item `index` leaves what every row
   * shows as it was: the stored list catches up with the screen.
   */
  lemma CommitKeepsShownQuantities(items: seq<Item>, pending: map<int, int>, index: int, j: int)
    requires 0 <= index < |items| && index in pending && 0 <= j < |items|
    ensures Shown(WithQuantity(items, index, pending[index]), pending, j) == Shown(items, pending, j)
    ensures WithQuantity(items, index, pending[index])[index].quantity == Shown(items, pending, index)
  {
  }

  /** The stock list of the vendor page, with its pending quantity edits. */
  class StockView {
    const store: DocumentStore
    var items: seq<Item>
    var pending: map<int, int>

    /** The list on screen is the one the store holds. */
    ghost predicate Synced()
      reads this, store
    {
      store.Valid() && items == ItemsOrEmpty(StoredItems(store.fields))
    }

    /** Loading the vendor's document: `items || []`, no pending edits. */
    constructor(store: DocumentStore)
      requires store.Valid()
      ensures this.store == store && Synced() && pending == map[]
    {
      this.store := store;
      items := ItemsOrEmpty(StoredItems(store.fields));
      pending := map[];
    }

    /** The value in the quantity input of row `index`. */
    function DisplayedQuantity(index: int): Option<int>
      reads this
      requires 0 <= index < |items|
    {
      Shown(items, pending, index)
    }

    /** Typing into row `index`: its pending entry becomes `quantity`, every other entry stays. */
    method HandleQuantityChange(index: int, quantity: int)
      modifies this`pending
      ensures pending == old(pending)[index := quantity]
      ensures forall j :: j != index ==> (j in pending <==> j in old(pending))
      ensures forall j :: j != index && j in pending ==> pending[j] == old(pending)[j]
    {
      pending := pending[index := quantity];
    }

    /**
     * Pressing "Update Quantity" on row `index`: without a pending entry
     * nothing happens; otherwise a copy of the list with that item's quantity
     * replaced is written with `updateDoc`, and shown once the write succeeds.
     * Pending entries are kept either way.
     */
    method HandleUpdateClick(index: int, storeAvailable: bool) returns (outcome: Outcome)
      requires Synced()
      requires 0 <= index < |items|
      modifies this, store
      ensures Synced()
      ensures pending == old(pending)
      ensures index !in pending ==> outcome == Skipped
      ensures index in pending ==>
        outcome == (if storeAvailable && old(store.created) then Saved else WriteFailed)
      ensures outcome != Saved ==> unchanged(this, store)
      ensures outcome == Saved ==>
        && items == WithQuantity(old(items), index, pending[index])
        && store.fields == MergePatch(old(store.fields), ItemsPatch(items))
        && ChangesOnly(old(store.fields), store.fields, {ItemsField})
    {
      if index !in pending {
        outcome := Skipped;
        return;
      }
      var q := pending[index];
      var copy := new Item[|items|](j reads this requires 0 <= j < |items| => items[j]);
      copy[index] := copy[index].(quantity := Some(q));
      var updated := copy[..];
      assert updated == WithQuantity(items, index, q);
      var ok := store.Update(ItemsPatch(updated), storeAvailable);
      if ok {
        items := updated;
        outcome := Saved;
      } else {
        outcome := WriteFailed;
      }
    }
  }
}
