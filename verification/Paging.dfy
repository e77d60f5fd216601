/** Newest-first history pages addressed by decimal offsets, and what a client sees by following them. */
module Paging {
  import opened Decimal

  /** A page, or the run-time panic of slicing from a negative offset. */
  datatype Page<T> = Page(items: seq<T>, next: string) | SlicePanic

  function Reversed<T>(s: seq<T>): (r: seq<T>)
    ensures |r| == |s|
    ensures forall i :: 0 <= i < |s| ==> r[i] == s[|s| - 1 - i]
  {
    seq(|s|, i requires 0 <= i < |s| => s[|s| - 1 - i])
  }

  function PageSize(limit: int): (n: nat)
    ensures 0 < n <= 200
  {
    if limit <= 0 || limit > 200 then 50 else limit
  }

  /** The 64-bit cursor value read as a signed int. */
  function AsInt64(n: nat): int {
    if n < TWO_TO_63 then n else n - TWO_TO_64
  }

  function StartOf(cursor: string, length: nat): int {
    var start := if cursor != "" && ParseUint(cursor).Some? then AsInt64(ParseUint(cursor).value) else 0;
    if start > length then length else start
  }

  /** One page of an oldest-first list, shown newest first. */
  function HistoryPage<T>(all: seq<T>, cursor: string, limit: int): Page<T> {
    var start := StartOf(cursor, |all|);
    if start < 0 then SlicePanic
    else
      var end := if start + PageSize(limit) < |all| then start + PageSize(limit) else |all|;
      Page(Reversed(all)[start..end], if end < |all| then Itoa(end) else "")
  }

  method ReverseOf<T>(all: seq<T>) returns (rev: seq<T>)
    ensures rev == Reversed(all)
  {
    rev := [];
    for i := 0 to |all|
      invariant |rev| == i
      invariant forall j :: 0 <= j < i ==> rev[j] == all[i - 1 - j]
    {
      rev := [all[i]] + rev;
    }
  }

  method TakeFrom<T>(rev: seq<T>, start: nat, size: nat) returns (out: seq<T>)
    requires start <= |rev|
    ensures out == rev[start..if start + size < |rev| then start + size else |rev|]
  {
    out := [];
    var i := start;
    while i < |rev| && |out| < size
      invariant start <= i <= |rev| && |out| == i - start <= size
      invariant out == rev[start..i]
    {
      assert rev[start..i + 1] == rev[start..i] + [rev[i]];
      out := out + [rev[i]];
      i := i + 1;
    }
  }

  /** The paging code, over the list as it stands. */
  method PageOf<T>(all: seq<T>, cursor: string, limit: int) returns (page: Page<T>)
    ensures page == HistoryPage(all, cursor, limit)
  {
    var size := limit;
    if size <= 0 || size > 200 {
      size := 50;
    }
    var rev := ReverseOf(all);
    var start := 0;
    if cursor != "" {
      var n := ParseDecimal(cursor);
      if n.Some? {
        start := AsInt64(n.value);
      }
    }
    if start > |rev| {
      start := |rev|;
    }
    if start < 0 {
      return SlicePanic;
    }
    var out := TakeFrom(rev, start, size);
    page := Page(out, if start + |out| < |rev| then Itoa(start + |out|) else "");
  }

  /** A page request fails exactly on a decimal cursor that reads as 2^63 or more in 64 bits. No cursor the
      ledger hands out does, for a list whose length fits an int64. */
  lemma {:induction false} PanicsExactlyOn<T>(all: seq<T>, cursor: string, limit: int)
    ensures HistoryPage(all, cursor, limit).SlicePanic?
            <==> ParseUint(cursor).Some? && ParseUint(cursor).value >= TWO_TO_63
    ensures |all| < TWO_TO_63 && HistoryPage(all, cursor, limit).Page? && HistoryPage(all, cursor, limit).next != ""
            ==> HistoryPage(all, HistoryPage(all, cursor, limit).next, limit).Page?
  {
    var page := HistoryPage(all, cursor, limit);
    if |all| < TWO_TO_63 && page.Page? && page.next != "" {
      var start := StartOf(cursor, |all|);
      ParseItoa(start + PageSize(limit));
    }
  }

  /** Every list can be asked for such a cursor: any decimal text from 2^63 up to 2^64. */
  lemma {:induction false} CursorPanics<T>(all: seq<T>, limit: int, n: nat)
    requires TWO_TO_63 <= n < TWO_TO_64
    ensures HistoryPage(all, Itoa(n), limit) == SlicePanic
  {
    ParseItoa(n);
  }

  /** A page holds at most as many lines as asked for, 50 when the limit is out of range, and exactly that many when
      another follows; its cursor is decimal text. A cursor that is not decimal starts over from the newest. */
  lemma {:induction false} PageHonoursLimit<T>(all: seq<T>, cursor: string, limit: int)
    ensures var page := HistoryPage(all, cursor, limit);
            var size := if 1 <= limit <= 200 then limit else 50;
            && (page.Page? ==> |page.items| <= size)
            && (page.Page? && page.next != "" ==> |page.items| == size && AllDigits(page.next))
    ensures !AllDigits(cursor) ==> HistoryPage(all, cursor, limit) == HistoryPage(all, "", limit)
    ensures HistoryPage(all, "", limit).Page?
            && forall i :: 0 <= i < |HistoryPage(all, "", limit).items|
                 ==> HistoryPage(all, "", limit).items[i] == all[|all| - 1 - i]
  {
  }

  /** The page at an offset that a cursor names. */
  lemma {:induction false} PageAtOffset<T>(all: seq<T>, start: nat, cursor: string, limit: int)
    requires start <= |all| < TWO_TO_63
    requires if cursor == "" then start == 0 else cursor == Itoa(start)
    ensures var end := if start + PageSize(limit) < |all| then start + PageSize(limit) else |all|;
            HistoryPage(all, cursor, limit) == Page(Reversed(all)[start..end], if end < |all| then Itoa(end) else "")
            && Reversed(all)[..start] + Reversed(all)[start..end] == Reversed(all)[..end]
            && (end == |all| ==> Reversed(all)[..end] == Reversed(all))
  {
    ParseItoa(start);
  }

  // ---- Following next_cursor ----

  /** What one request of a walk finds: the list as it then stands, and the page size asked for. */
  datatype Visit<T> = Visit(all: seq<T>, limit: int)

  function CursorAt<T>(visits: seq<Visit<T>>, n: nat): string
    requires n <= |visits|
    decreases n, 0
  {
    if n == 0 then "" else if PageAt(visits, n - 1).Page? then PageAt(visits, n - 1).next else ""
  }

  function PageAt<T>(visits: seq<Visit<T>>, n: nat): Page<T>
    requires n < |visits|
    decreases n, 1
  {
    HistoryPage(visits[n].all, CursorAt(visits, n), visits[n].limit)
  }

  /** The first n pages were followed by another request: each gave a cursor. */
  predicate Continues<T>(visits: seq<Visit<T>>, n: nat)
    requires n <= |visits|
  {
    forall i :: 0 <= i < n ==> PageAt(visits, i).Page? && PageAt(visits, i).next != ""
  }

  /** New lines are only ever appended between requests. */
  ghost predicate OnlyAppended<T>(visits: seq<Visit<T>>) {
    && (forall i :: 0 <= i < |visits| ==> |visits[i].all| < TWO_TO_63)
    && (forall i, j :: 0 <= i <= j < |visits| ==> visits[i].all <= visits[j].all)
  }

  function Offset<T>(visits: seq<Visit<T>>, n: nat): nat
    requires n <= |visits|
  {
    if n == 0 then 0
    else Offset(visits, n - 1) + if PageAt(visits, n - 1).Page? then |PageAt(visits, n - 1).items| else 0
  }

  /** The n-th request starts where the pages before it ended. */
  lemma {:induction false} StartsAtOffset<T>(visits: seq<Visit<T>>, n: nat)
    requires n < |visits| && OnlyAppended(visits) && Continues(visits, n)
    ensures StartOf(CursorAt(visits, n), |visits[n].all|) == Offset(visits, n) <= |visits[n].all|
    ensures n > 0 ==> Offset(visits, n) < |visits[n - 1].all|
  {
    if n > 0 {
      StartsAtOffset(visits, n - 1);
      var before := |visits[n - 1].all|;
      assert PageAt(visits, n - 1).next == Itoa(Offset(visits, n));
      assert visits[n - 1].all <= visits[n].all;
      ParseItoa(Offset(visits, n));
    }
  }

  /** Line j of the list is on page i. */
  ghost predicate ShownOn<T>(visits: seq<Visit<T>>, i: nat, j: nat)
    requires i < |visits|
  {
    && PageAt(visits, i).Page? && j < |visits[i].all|
    && var p := |visits[i].all| - 1 - j - Offset(visits, i);
    0 <= p < |PageAt(visits, i).items| && PageAt(visits, i).items[p] == visits[i].all[j]
  }

  /** The lines on the n-th page, by their place in the list. */
  lemma {:induction false} PageLines<T>(visits: seq<Visit<T>>, n: nat)
    requires n < |visits| && OnlyAppended(visits) && Continues(visits, n) && PageAt(visits, n).Page?
    ensures var all, start, items := visits[n].all, Offset(visits, n), PageAt(visits, n).items;
            && Offset(visits, n + 1) == start + |items| <= |all|
            && forall p :: 0 <= p < |items| ==> items[p] == all[|all| - 1 - (start + p)]
  {
    hide CursorAt;
    StartsAtOffset(visits, n);
    var all, start := visits[n].all, Offset(visits, n);
    var end := if start + PageSize(visits[n].limit) < |all| then start + PageSize(visits[n].limit) else |all|;
    assert PageAt(visits, n).items == Reversed(all)[start..end];
    assert forall p :: 0 <= p < end - start ==> Reversed(all)[start..end][p] == Reversed(all)[start + p];
  }

  lemma {:induction false} ShownSoFar<T>(visits: seq<Visit<T>>, n: nat, j: nat)
    requires n <= |visits| && OnlyAppended(visits) && Continues(visits, if n == 0 then 0 else n - 1)
    requires n > 0 && j < |visits[0].all| && PageAt(visits, n - 1).Page?
    requires |visits[n - 1].all| - Offset(visits, n) <= j
    ensures exists i :: 0 <= i < n && ShownOn(visits, i, j)
  {
    hide PageAt, Offset, CursorAt;
    var m := n - 1;
    PageLines(visits, m);
    OffsetZero(visits);
    assert visits[0].all <= visits[m].all;
    if |visits[m].all| - Offset(visits, m) <= j {
      assert visits[m - 1].all <= visits[m].all;
      assert Continues(visits, m - 1);
      ShownSoFar(visits, m, j);
    } else {
      var p := |visits[m].all| - 1 - j - Offset(visits, m);
      assert PageAt(visits, m).items[p] == visits[m].all[|visits[m].all| - 1 - (Offset(visits, m) + p)];
      assert ShownOn(visits, m, j);
    }
  }

  /** A walk that follows next_cursor to the end, while lines are appended between its pages, shows every line
      that was there when it began. */
  lemma {:induction false} WalkSkipsNothing<T>(visits: seq<Visit<T>>, j: nat)
    requires visits != [] && OnlyAppended(visits) && Continues(visits, |visits| - 1)
    requires PageAt(visits, |visits| - 1).Page? && PageAt(visits, |visits| - 1).next == ""
    requires j < |visits[0].all|
    ensures exists i :: 0 <= i < |visits| && ShownOn(visits, i, j) && visits[i].all[j] == visits[0].all[j]
  {
    var last := |visits| - 1;
    StartsAtOffset(visits, last);
    ShownSoFar(visits, |visits|, j);
    var i :| 0 <= i < |visits| && ShownOn(visits, i, j);
    assert visits[0].all <= visits[i].all;
  }

  function Pages<T>(visits: seq<Visit<T>>, n: nat): seq<T>
    requires n <= |visits|
  {
    if n == 0 then []
    else Pages(visits, n - 1) + if PageAt(visits, n - 1).Page? then PageAt(visits, n - 1).items else []
  }

  /** A page that follows on from offset `start` of an unchanging list. */
  lemma {:induction false} QuietPage<T>(visits: seq<Visit<T>>, all: seq<T>, n: nat)
    requires n < |visits| && |all| < TWO_TO_63
    requires forall i :: 0 <= i < |visits| ==> visits[i].all == all
    requires Continues(visits, n)
    ensures PageAt(visits, n).Page? && Offset(visits, n) <= Offset(visits, n + 1) <= |all|
    ensures PageAt(visits, n).items == Reversed(all)[Offset(visits, n)..Offset(visits, n + 1)]
    ensures PageAt(visits, n).next == "" <==> Offset(visits, n + 1) == |all|
    ensures PageAt(visits, n).next != "" ==> Offset(visits, n) < Offset(visits, n + 1)
  {
    StartsAtOffset(visits, n);
    var start := Offset(visits, n);
    var size := PageSize(visits[n].limit);
    var end := if start + size < |all| then start + size else |all|;
    assert PageAt(visits, n) == Page(Reversed(all)[start..end], if end < |all| then Itoa(end) else "");
    assert Offset(visits, n + 1) == end;
  }

  lemma {:induction false} SliceJoin<T>(s: seq<T>, a: nat, b: nat)
    requires a <= b <= |s|
    ensures s[..a] + s[a..b] == s[..b]
    ensures b == |s| ==> s[..b] == s
  {
  }

  /** With no writes in between, the pages of any sizes so far are exactly the newest lines in order, without
      repeats; once no cursor is given they are the whole list reversed. Every page before that shows at least
      one more line, so the walk ends. */
  lemma {:induction false} QuietWalkIsReversal<T>(visits: seq<Visit<T>>, all: seq<T>, n: nat)
    requires n < |visits| && |all| < TWO_TO_63
    requires forall i :: 0 <= i < |visits| ==> visits[i].all == all
    requires Continues(visits, n)
    ensures PageAt(visits, n).Page?
    ensures n <= Offset(visits, n) <= Offset(visits, n + 1) <= |all|
    ensures Pages(visits, n + 1) == Reversed(all)[..Offset(visits, n + 1)]
    ensures PageAt(visits, n).next == "" <==> Offset(visits, n + 1) == |all|
    ensures PageAt(visits, n).next == "" ==> Pages(visits, n + 1) == Reversed(all)
  {
    hide HistoryPage, CursorAt, PageAt, Offset, Reversed;
    QuietPage(visits, all, n);
    SliceJoin(Reversed(all), Offset(visits, n), Offset(visits, n + 1));
    assert Pages(visits, n + 1) == Pages(visits, n) + PageAt(visits, n).items;
    if n > 0 {
      QuietWalkIsReversal(visits, all, n - 1);
      QuietPage(visits, all, n - 1);
    } else {
      OffsetZero(visits);
    }
  }

  lemma {:induction false} OffsetZero<T>(visits: seq<Visit<T>>)
    ensures Offset(visits, 0) == 0
  {
  }
}
