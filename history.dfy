/** The rolling same-day history the accessory keeps for the low: after each
    successful fetch, the readings of days other than today are dropped and
    the new reading is appended. Days are abstract day numbers; "today" is
    the clock's day, passed in. */
module History {
  import opened Griddy

  /** The items of `h` dated `today`, in their order: the `filter` of the update. */
  function SameDay(h: seq<Item>, today: int): (r: seq<Item>)
    ensures |r| <= |h|
    ensures forall x :: x in r <==> x in h && x.day == today
  {
    if |h| == 0 then []
    else (if h[0].day == today then [h[0]] else []) + SameDay(h[1..], today)
  }

  /** `a` is `b` with some elements left out, the rest kept in their order. */
  predicate IsSubsequence(a: seq<Item>, b: seq<Item>)
    decreases |b|
  {
    if |a| == 0 then true
    else if |b| == 0 then false
    else (a[0] == b[0] && IsSubsequence(a[1..], b[1..])) || IsSubsequence(a, b[1..])
  }

  /** Filtering keeps the relative order of the items it keeps. */
  lemma {:induction false} SameDayIsSubsequence(h: seq<Item>, today: int)
    ensures IsSubsequence(SameDay(h, today), h)
  {
    if |h| > 0 {
      SameDayIsSubsequence(h[1..], today);
      var r := SameDay(h, today);
      if h[0].day == today {
        assert r[0] == h[0] && r[1..] == SameDay(h[1..], today);
      } else {
        assert r == SameDay(h[1..], today);
      }
    }
  }

  /** Filtering a concatenation filters each part, in order. */
  lemma {:induction false} SameDayAppend(h1: seq<Item>, h2: seq<Item>, today: int)
    ensures SameDay(h1 + h2, today) == SameDay(h1, today) + SameDay(h2, today)
  {
    if |h1| == 0 {
      assert h1 + h2 == h2;
    } else {
      assert (h1 + h2)[0] == h1[0];
      assert (h1 + h2)[1..] == h1[1..] + h2;
      SameDayAppend(h1[1..], h2, today);
    }
  }

  /** A history that is all from today is kept whole. */
  lemma {:induction false} SameDayKeepsToday(h: seq<Item>, today: int)
    requires forall i :: 0 <= i < |h| ==> h[i].day == today
    ensures SameDay(h, today) == h
  {
    if |h| > 0 {
      SameDayKeepsToday(h[1..], today);
    }
  }

  /** A history with nothing from today is dropped entirely. */
  lemma {:induction false} SameDayDropsOtherDays(h: seq<Item>, today: int)
    requires forall i :: 0 <= i < |h| ==> h[i].day != today
    ensures SameDay(h, today) == []
  {
    if |h| > 0 {
      SameDayDropsOtherDays(h[1..], today);
    }
  }

  /** Filtering twice by the same day is filtering once. */
  lemma SameDayIdempotent(h: seq<Item>, today: int)
    ensures SameDay(SameDay(h, today), today) == SameDay(h, today)
  {
    var r := SameDay(h, today);
    assert forall i :: 0 <= i < |r| ==> r[i] in r;
    SameDayKeepsToday(r, today);
  }

  /** The history after a successful fetch: today's items of the old history,
      then the new reading, whatever its own date. */
  function NextHistory(h: seq<Item>, now: Item, today: int): (r: seq<Item>)
    ensures |r| == |SameDay(h, today)| + 1 <= |h| + 1
    ensures r[|r| - 1] == now
    ensures forall i :: 0 <= i < |r| - 1 ==> r[i].day == today
    ensures forall x :: x in h && x.day == today ==> x in r[..|r| - 1]
    ensures IsSubsequence(r[..|r| - 1], h)
  {
    SameDayIsSubsequence(h, today);
    var kept := SameDay(h, today);
    assert forall i :: 0 <= i < |kept| ==> kept[i] in kept;
    var r := kept + [now];
    assert r[..|r| - 1] == kept;
    r
  }

  /** Fetches within one day only ever append. */
  lemma NextHistorySameDay(h: seq<Item>, now: Item, today: int)
    requires forall i :: 0 <= i < |h| ==> h[i].day == today
    ensures NextHistory(h, now, today) == h + [now]
  {
    SameDayKeepsToday(h, today);
  }

  /** The first fetch of a new day starts the history afresh. */
  lemma NextHistoryNewDay(h: seq<Item>, now: Item, today: int)
    requires forall i :: 0 <= i < |h| ==> h[i].day != today
    ensures NextHistory(h, now, today) == [now]
  {
    SameDayDropsOtherDays(h, today);
  }
}
