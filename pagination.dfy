/** The "API Activity Logs" view: ten entries per page, newest page selected
    by default, entries listed newest first with a numbered label; and the
    numbering of the "Recent API Calls" panel. */
module LogPagination {
  import opened Windows

  const LogsPerPage := 10
  const RecentCalls := 5

  /** `(total_logs - 1) // logs_per_page + 1`, which is ceil(total / 10). */
  function TotalPages(total: nat): (pages: nat)
    requires total >= 1
    ensures pages >= 1
    ensures (pages - 1) * LogsPerPage < total <= pages * LogsPerPage
  {
    (total - 1) / LogsPerPage + 1
  }

  function StartIdx(page: nat): nat
    requires page >= 1
  {
    (page - 1) * LogsPerPage
  }

  function EndIdx(page: nat, total: nat): nat
    requires page >= 1
  {
    Min(StartIdx(page) + LogsPerPage, total)
  }

  /** The page offered first: index `total_pages - 1` of `range(1, total_pages + 1)`.
      It is the one page that ends with the newest entry. */
  function DefaultPage(total: nat): (page: nat)
    requires total >= 1
    ensures 1 <= page <= TotalPages(total)
    ensures EndIdx(page, total) == total
    ensures forall p :: 1 <= p <= TotalPages(total) && EndIdx(p, total) == total ==> p == page
  {
    TotalPages(total)
  }

  /** `logs_to_show`: the selected page's slice when there are several pages,
      the whole log otherwise. Every page holds between one and ten entries. */
  function LogsToShow<T>(log: seq<T>, page: nat): (shown: seq<T>)
    requires |log| >= 1 && 1 <= page <= TotalPages(|log|)
    ensures 0 <= StartIdx(page) < EndIdx(page, |log|) <= |log|
    ensures shown == log[StartIdx(page)..EndIdx(page, |log|)]
    ensures 1 <= |shown| <= LogsPerPage
  {
    if TotalPages(|log|) > 1 then log[StartIdx(page)..EndIdx(page, |log|)] else log
  }

  /** Pages `page`, `page + 1`, ..., `TotalPages` shown one after the other. */
  function PagesFrom<T>(log: seq<T>, page: nat): seq<T>
    requires |log| >= 1 && page >= 1
    decreases TotalPages(|log|) + 1 - page
  {
    if page > TotalPages(|log|) then [] else LogsToShow(log, page) + PagesFrom(log, page + 1)
  }

  lemma {:induction false} PagesFromIsSuffix<T>(log: seq<T>, page: nat)
    requires |log| >= 1 && 1 <= page <= TotalPages(|log|) + 1
    ensures PagesFrom(log, page) == log[Min(StartIdx(page), |log|)..]
    decreases TotalPages(|log|) + 1 - page
  {
    var pages := TotalPages(|log|);
    if page <= pages {
      var start, end := StartIdx(page), EndIdx(page, |log|);
      PagesFromIsSuffix(log, page + 1);
      assert StartIdx(page + 1) == start + LogsPerPage;
      assert Min(StartIdx(page + 1), |log|) == end;
      assert PagesFrom(log, page) == log[start..end] + log[end..];
      assert log[start..] == log[start..end] + log[end..];
    } else {
      assert StartIdx(page) == pages * LogsPerPage;
    }
  }

  /** Reading every page in order reproduces the whole log. */
  lemma PagesReproduceLog<T>(log: seq<T>)
    requires |log| >= 1
    ensures PagesFrom(log, 1) == log
  {
    PagesFromIsSuffix(log, 1);
  }

  /** The label of the i-th newest of the last five calls: `len(sensor_data) - i`. */
  function RecentCallLabel(total: nat, i: nat): int {
    total - i
  }

  /** That label is the entry's true 1-based position in the log. */
  lemma RecentCallLabelIsPosition<T>(log: seq<T>, i: nat)
    requires i < |NewestFirst(log, RecentCalls)|
    ensures 1 <= RecentCallLabel(|log|, i) <= |log|
    ensures log[RecentCallLabel(|log|, i) - 1] == NewestFirst(log, RecentCalls)[i]
  {
  }

  /** The log-view label as written:
      `total_logs - i if total_pages == 1 else total_logs - start_idx - i`. */
  function LogLabel(total: nat, page: nat, i: nat): int
    requires total >= 1 && 1 <= page <= TotalPages(total)
  {
    if TotalPages(total) == 1 then total - i else total - StartIdx(page) - i
  }

  /** The true 1-based position of the i-th entry listed on a page: the page's
      entries are listed newest first, so it is the page's end minus `i`. */
  function EntryPosition(total: nat, page: nat, i: nat): int
    requires total >= 1 && 1 <= page <= TotalPages(total)
  {
    EndIdx(page, total) - i
  }

  lemma EntryPositionIsPosition<T>(log: seq<T>, page: nat, i: nat)
    requires |log| >= 1 && 1 <= page <= TotalPages(|log|)
    requires i < |LogsToShow(log, page)|
    ensures 1 <= EntryPosition(|log|, page, i) <= |log|
    ensures log[EntryPosition(|log|, page, i) - 1] == Reverse(LogsToShow(log, page))[i]
  {
    var shown := LogsToShow(log, page);
    var start, end := StartIdx(page), EndIdx(page, |log|);
    assert |shown| == end - start;
    assert Reverse(shown)[i] == shown[|shown| - 1 - i];
    assert shown[|shown| - 1 - i] == log[end - 1 - i];
  }

  /** The written label agrees with the true position exactly when there is a
      single page, or when the page's start and end add up to the total. */
  lemma LogLabelCorrectIff(total: nat, page: nat, i: nat)
    requires total >= 1 && 1 <= page <= TotalPages(total)
    ensures LogLabel(total, page, i) == EntryPosition(total, page, i)
        <==> TotalPages(total) == 1 || StartIdx(page) + EndIdx(page, total) == total
  {
  }

  /** With one page the written label is the true position. */
  lemma SinglePageLabelIsPosition<T>(log: seq<T>, i: nat)
    requires |log| >= 1 && TotalPages(|log|) == 1
    requires i < |LogsToShow(log, 1)|
    ensures log[LogLabel(|log|, 1, i) - 1] == Reverse(LogsToShow(log, 1))[i]
  {
    EntryPositionIsPosition(log, 1, i);
  }

  /** With 25 entries the default page is page 3, whose newest entry is entry 25,
      yet it is labelled "Log #5". */
  lemma LogLabelMisnumbersLastPage()
    ensures DefaultPage(25) == 3
    ensures EntryPosition(25, 3, 0) == 25
    ensures LogLabel(25, 3, 0) == 5
  {
  }
}
