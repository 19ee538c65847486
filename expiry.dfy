/**
 * The expiry scan of the dashboard screen: given the user's vitamin and
 * medication records and a reference day, emit one notice for each record
 * that expires today or tomorrow, vitamins first, each list in its own order.
 *
 * Calendar days are integer day ordinals, so "tomorrow" is `today + 1` and
 * comparing two dates by their day string is comparing two ordinals.
 */
module Expiry {
  import opened Optional

  /** The tag a notice carries: which list the record came from. */
  datatype ItemType = Vitamin | Medication

  /** When the record expires, relative to the reference day. */
  datatype When = Today | Tomorrow

  /**
   * The `expirationDate` field of a record: absent or otherwise falsy, a
   * string that does not parse as a date (its day string is "Invalid Date",
   * which equals no real day), or a date falling on the given day ordinal.
   */
  datatype Expiration = Missing | Unparseable | OnDay(day: int)

  /** A vitamin or medication record as fetched from the records service. */
  datatype Record = Record(name: string, selectedName: Option<string>, expirationDate: Expiration)

  /** One line of the reminder modal. */
  datatype Notice = Notice(name: string, itemType: ItemType, when: When)

  /** The name a notice shows: `selectedName` unless it is absent or empty, else `name`. */
  function DisplayName(r: Record): (n: string)
    ensures r.selectedName.Some? && r.selectedName.value != [] ==> n == r.selectedName.value
    ensures r.selectedName.None? || r.selectedName.value == [] ==> n == r.name
  {
    match r.selectedName
    case Some(s) => if s != [] then s else r.name
    case None => r.name
  }

  /** Whether a record's expiration date falls on the reference day or the day after. */
  predicate ExpiresSoon(r: Record, today: int)
  {
    r.expirationDate.OnDay? && (r.expirationDate.day == today || r.expirationDate.day == today + 1)
  }

  /**
   * The notice `checkItem` pushes for one record, if any: "today" takes
   * priority over "tomorrow", and a record that is neither emits nothing.
   */
  function ItemNotice(r: Record, kind: ItemType, today: int): (o: Option<Notice>)
    ensures o.Some? <==> ExpiresSoon(r, today)
    ensures r.expirationDate.Missing? || r.expirationDate.Unparseable? ==> o.None?
    ensures o.Some? ==> o.value.name == DisplayName(r) && o.value.itemType == kind
    ensures o.Some? ==> (o.value.when == Today <==> r.expirationDate.day == today)
    ensures o.Some? ==> (o.value.when == Tomorrow <==> r.expirationDate.day == today + 1)
  {
    match r.expirationDate
    case Missing => None
    case Unparseable => None
    case OnDay(d) =>
      if d == today then Some(Notice(DisplayName(r), kind, Today))
      else if d == today + 1 then Some(Notice(DisplayName(r), kind, Tomorrow))
      else None
  }

  /** The zero or one notices emitted for a record, as a sequence. */
  function Emitted(r: Record, kind: ItemType, today: int): seq<Notice>
  {
    match ItemNotice(r, kind, today)
    case Some(n) => [n]
    case None => []
  }

  /** The notices emitted for a whole list, in list order (the reference definition). */
  function Notices(rs: seq<Record>, kind: ItemType, today: int): (ns: seq<Notice>)
    ensures |ns| <= |rs|
    ensures forall k :: 0 <= k < |ns| ==> ns[k].itemType == kind
  {
    if rs == [] then [] else Emitted(rs[0], kind, today) + Notices(rs[1..], kind, today)
  }

  /** Scanning a concatenation is concatenating the scans: notices keep the order of their records. */
  lemma {:induction false} NoticesAppend(a: seq<Record>, b: seq<Record>, kind: ItemType, today: int)
    ensures Notices(a + b, kind, today) == Notices(a, kind, today) + Notices(b, kind, today)
  {
    if a == [] {
      assert a + b == b;
    } else {
      assert (a + b)[0] == a[0];
      assert (a + b)[1..] == a[1..] + b;
      NoticesAppend(a[1..], b, kind, today);
    }
  }

  /** Scanning one more record appends that record's notices. */
  lemma NoticesSnoc(rs: seq<Record>, i: nat, kind: ItemType, today: int)
    requires i < |rs|
    ensures Notices(rs[..i + 1], kind, today) == Notices(rs[..i], kind, today) + Emitted(rs[i], kind, today)
  {
    assert rs[..i + 1] == rs[..i] + [rs[i]];
    NoticesAppend(rs[..i], [rs[i]], kind, today);
  }

  /** The scan of a list is empty exactly when no record in it expires today or tomorrow. */
  lemma {:induction false} NoticesEmptyIff(rs: seq<Record>, kind: ItemType, today: int)
    ensures Notices(rs, kind, today) == [] <==> forall i :: 0 <= i < |rs| ==> !ExpiresSoon(rs[i], today)
  {
    if rs != [] {
      NoticesEmptyIff(rs[1..], kind, today);
      if ExpiresSoon(rs[0], today) {
        assert Notices(rs, kind, today)[0] == ItemNotice(rs[0], kind, today).value;
      } else {
        assert forall i :: 1 <= i < |rs| ==> rs[i] == rs[1..][i - 1];
      }
    }
  }

  /**
   * Completeness and position: a record that expires today or tomorrow has
   * its notice in the scan, right after the notices of the records before it.
   */
  lemma NoticeOfRecord(rs: seq<Record>, i: nat, kind: ItemType, today: int)
    requires i < |rs| && ExpiresSoon(rs[i], today)
    ensures |Notices(rs[..i], kind, today)| < |Notices(rs, kind, today)|
    ensures Notices(rs, kind, today)[|Notices(rs[..i], kind, today)|] == ItemNotice(rs[i], kind, today).value
  {
    assert rs == rs[..i] + rs[i..];
    NoticesAppend(rs[..i], rs[i..], kind, today);
    assert rs[i..][0] == rs[i];
  }

  /** Soundness: every notice in the scan is the notice of some record of the list. */
  lemma {:induction false} NoticeHasRecord(rs: seq<Record>, k: nat, kind: ItemType, today: int)
    requires k < |Notices(rs, kind, today)|
    ensures exists i :: 0 <= i < |rs| && ItemNotice(rs[i], kind, today) == Some(Notices(rs, kind, today)[k])
  {
    var e := Emitted(rs[0], kind, today);
    if k < |e| {
      assert ItemNotice(rs[0], kind, today) == Some(Notices(rs, kind, today)[k]);
    } else {
      NoticeHasRecord(rs[1..], k - |e|, kind, today);
      var i :| 0 <= i < |rs[1..]| && ItemNotice(rs[1..][i], kind, today) == Some(Notices(rs[1..], kind, today)[k - |e|]);
      assert rs[1..][i] == rs[i + 1];
    }
  }

  /**
   * `checkItem`: push onto `items` the notice for `r`, if it expires on the
   * reference day or the next one.
   */
  method CheckItem(items: seq<Notice>, r: Record, kind: ItemType, today: int) returns (items': seq<Notice>)
    ensures items' == items + Emitted(r, kind, today)
  {
    items' := items;
    if r.expirationDate.Missing? {
      return;
    }
    if r.expirationDate == OnDay(today) {
      items' := items' + [Notice(DisplayName(r), kind, Today)];
    } else if r.expirationDate == OnDay(today + 1) {
      items' := items' + [Notice(DisplayName(r), kind, Tomorrow)];
    }
  }

  /** `forEach(checkItem)` over one list: push each record's notice, in list order. */
  method CheckAll(items: seq<Notice>, rs: seq<Record>, kind: ItemType, today: int) returns (items': seq<Notice>)
    ensures items' == items + Notices(rs, kind, today)
  {
    items' := items;
    for i := 0 to |rs|
      invariant items' == items + Notices(rs[..i], kind, today)
    {
      items' := CheckItem(items', rs[i], kind, today);
      NoticesSnoc(rs, i, kind, today);
    }
    assert rs[..|rs|] == rs;
  }

  /** In the combined list no vitamin notice comes after a medication notice. */
  lemma VitaminsFirst(vitamins: seq<Record>, medications: seq<Record>, today: int)
    ensures var items := Notices(vitamins, Vitamin, today) + Notices(medications, Medication, today);
      forall i, j :: 0 <= i < j < |items| && items[j].itemType == Vitamin ==> items[i].itemType == Vitamin
  {
  }

  /**
   * The body of `checkExpiringItems` once both lists are fetched: scan the
   * vitamins, then the medications, pushing notices onto one list.
   */
  method CollectNotices(vitamins: seq<Record>, medications: seq<Record>, today: int) returns (items: seq<Notice>)
    ensures items == Notices(vitamins, Vitamin, today) + Notices(medications, Medication, today)
  {
    items := CheckAll([], vitamins, Vitamin, today);
    items := CheckAll(items, medications, Medication, today);
  }
}
