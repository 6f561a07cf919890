/** Keyset paging of the job list: the dashboard's Older link carries the creation
    time and the id of the last row of a full page. */
module Paging {
  import opened Values
  import opened Jobs

  /** The columns of a job that never change. Ids stand for uuids in their order. */
  datatype Job = Job(id: int, createdAt: Time, queue: string, kind: string)

  /** The columns that List filters by and that may change. */
  datatype Columns = Columns(status: Status, parent: Option<int>)

  type Table = map<Job, Columns>

  /** An empty string, and None, filter nothing. */
  datatype Filter = Filter(queue: string, kind: string, status: Option<Status>, parent: Option<int>)

  datatype Cursor = Cursor(createdAt: Time, id: int)

  const UI_JOBS_LIMIT := 100
  const LIST_LIMIT := 50

  predicate MatchesFixed(job: Job, f: Filter) {
    (f.queue == "" || job.queue == f.queue) && (f.kind == "" || job.kind == f.kind)
  }

  predicate Matches(job: Job, columns: Columns, f: Filter) {
    && MatchesFixed(job, f)
    && (f.status.None? || columns.status == f.status.value)
    && (f.parent.None? || columns.parent == f.parent)
  }

  function KeyOf(job: Job): Cursor {
    Cursor(job.createdAt, job.id)
  }

  /** (created_at, id) < (created_at, id), compared as rows. */
  predicate Less(a: Cursor, b: Cursor) {
    a.createdAt < b.createdAt || (a.createdAt == b.createdAt && a.id < b.id)
  }

  predicate Older(job: Job, before: Option<Cursor>) {
    before.Some? ==> Less(KeyOf(job), before.value)
  }

  /** The primary key. */
  predicate IdsUnique(db: Table) {
    forall a, b | a in db && b in db && a.id == b.id :: a == b
  }

  // ------------------------------------------------------------------- List

  predicate Descending(jobs: seq<Job>) {
    forall i, k | 0 <= i < k < |jobs| :: Less(KeyOf(jobs[k]), KeyOf(jobs[i]))
  }

  function Rows(db: Table, f: Filter, before: Option<Cursor>): set<Job> {
    set job | job in db && Matches(job, db[job], f) && Older(job, before)
  }

  function EffectiveLimit(limit: int): nat {
    if limit <= 0 || limit > 100 then LIST_LIMIT else limit
  }

  /** The answer to List: the matching rows before the cursor, newest first, as many
      as the limit admits and none left out in between. */
  ghost predicate IsPage(db: Table, f: Filter, before: Option<Cursor>, limit: int, page: seq<Job>) {
    var rows := Rows(db, f, before);
    && Descending(page)
    && (forall job | job in page :: job in rows)
    && |page| <= EffectiveLimit(limit)
    && (|page| < EffectiveLimit(limit) ==> forall job | job in rows :: job in page)
    && (forall job, last | job in rows && job !in page && last in page :: Less(KeyOf(job), KeyOf(last)))
  }

  /** There always is an answer: take the newest remaining row until the limit is
      reached or no row is left. */
  lemma PageExists(db: Table, f: Filter, before: Option<Cursor>, limit: int) returns (page: seq<Job>)
    requires IdsUnique(db)
    ensures IsPage(db, f, before, limit, page)
  {
    var rest := Rows(db, f, before);
    page := [];
    while rest != {} && |page| < EffectiveLimit(limit)
      invariant rest <= Rows(db, f, before) && Descending(page) && |page| <= EffectiveLimit(limit)
      invariant forall job :: job in Rows(db, f, before) <==> job in rest || job in page
      invariant forall job, last | job in rest && last in page :: Less(KeyOf(job), KeyOf(last))
      decreases |rest|
    {
      var newest := Newest(db, rest);
      page := page + [newest];
      rest := rest - {newest};
    }
  }

  lemma Newest(db: Table, rows: set<Job>) returns (newest: Job)
    requires IdsUnique(db) && rows <= db.Keys && rows != {}
    ensures newest in rows && forall job | job in rows && job != newest :: Less(KeyOf(job), KeyOf(newest))
  {
    newest :| newest in rows;
    var rest := rows - {newest};
    while rest != {}
      invariant newest in rows && rest <= rows
      invariant forall job | job in rows && job !in rest && job != newest :: Less(KeyOf(job), KeyOf(newest))
      decreases rest
    {
      var job :| job in rest;
      if Less(KeyOf(newest), KeyOf(job)) {
        newest := job;
      }
      rest := rest - {job};
    }
  }

  /** The rows have one order, so there is one answer. */
  lemma PageIsDetermined(db: Table, f: Filter, before: Option<Cursor>, limit: int, p: seq<Job>, q: seq<Job>)
    requires IsPage(db, f, before, limit, p) && IsPage(db, f, before, limit, q)
    ensures p == q
  {
    SamePrefix(db, f, before, limit, p, q, |p|);
    SamePrefix(db, f, before, limit, q, p, |q|);
    assert p[..|p|] == p && q[..|q|] == q;
  }

  lemma {:induction false} SamePrefix(db: Table, f: Filter, before: Option<Cursor>, limit: int, p: seq<Job>, q: seq<Job>, n: nat)
    requires IsPage(db, f, before, limit, p) && IsPage(db, f, before, limit, q) && n <= |p|
    ensures n <= |q| && p[..n] == q[..n]
  {
    if n > 0 {
      SamePrefix(db, f, before, limit, p, q, n - 1);
      NextIsThere(db, f, before, limit, p, q, n - 1);
      NotBefore(db, f, before, limit, p, q, n - 1);
      NotBefore(db, f, before, limit, q, p, n - 1);
    }
  }

  lemma NextIsThere(db: Table, f: Filter, before: Option<Cursor>, limit: int, p: seq<Job>, q: seq<Job>, n: nat)
    requires IsPage(db, f, before, limit, p) && IsPage(db, f, before, limit, q)
    requires n < |p| && n <= |q| && p[..n] == q[..n]
    ensures n < |q|
  {
    forall i | 0 <= i < n
      ensures p[i] == q[i]
    {
      assert p[..n][i] == q[..n][i];
    }
    assert p[n] in p;
  }

  /** With equal prefixes, p's next row is not older than q's. */
  lemma NotBefore(db: Table, f: Filter, before: Option<Cursor>, limit: int, p: seq<Job>, q: seq<Job>, n: nat)
    requires IsPage(db, f, before, limit, p) && IsPage(db, f, before, limit, q)
    requires n < |p| && n < |q| && p[..n] == q[..n]
    ensures p[n] == q[n] || Less(KeyOf(q[n]), KeyOf(p[n]))
  {
    forall i | 0 <= i < n
      ensures p[i] == q[i]
    {
      assert p[..n][i] == q[..n][i];
    }
    assert p[n] in p && q[n] in q;
  }

  // --------------------------------------------------------- the page walk

  /** The Older link of a page. */
  function OlderCursor(page: seq<Job>): Option<Cursor> {
    if |page| == UI_JOBS_LIMIT then Some(KeyOf(page[|page| - 1])) else None
  }

  function CursorFor(pages: seq<seq<Job>>, n: nat): Option<Cursor>
    requires n <= |pages|
  {
    if n == 0 then None else OlderCursor(pages[n - 1])
  }

  /** Between two pages jobs may be deleted or change their status, and jobs may be
      inserted that come after all those that were there when the walk began. */
  predicate OnlyNewer(first: Table, later: Table) {
    forall job, known | job in later && job !in first && known in first :: Less(KeyOf(known), KeyOf(job))
  }

  /** The pages that following the Older link shows, `dbs[n]` being the table when
      page n is read. */
  ghost predicate Walk(dbs: seq<Table>, f: Filter, pages: seq<seq<Job>>) {
    && |pages| == |dbs| > 0
    && (forall n | 0 <= n < |pages| :: IsPage(dbs[n], f, CursorFor(pages, n), UI_JOBS_LIMIT, pages[n]))
    && (forall n | 0 < n < |pages| :: CursorFor(pages, n).Some?)
    && (forall n | 0 <= n < |dbs| :: OnlyNewer(dbs[0], dbs[n]))
  }

  function Shown(pages: seq<seq<Job>>, n: nat): seq<Job>
    requires n <= |pages|
  {
    if n == 0 then [] else Shown(pages, n - 1) + pages[n - 1]
  }

  /** There, and matching, from the first page to the last. */
  predicate Stays(dbs: seq<Table>, f: Filter, job: Job) {
    forall n | 0 <= n < |dbs| :: job in dbs[n] && Matches(job, dbs[n][job], f)
  }

  /** There, and matching, when some page was read. */
  predicate Once(dbs: seq<Table>, f: Filter, job: Job) {
    exists n :: 0 <= n < |dbs| && job in dbs[n] && Matches(job, dbs[n][job], f)
  }

  /** The jobs of a table that could match, whatever becomes of their status. */
  function Candidates(db: Table, f: Filter): set<Job> {
    set job | job in db && MatchesFixed(job, f)
  }

  /** After n pages: in order, of the first table's rows, and everything that stays
      is either shown or still to come behind the cursor. */
  ghost predicate Progress(dbs: seq<Table>, f: Filter, shown: seq<Job>, cursor: Option<Cursor>)
    requires |dbs| > 0
  {
    && Descending(shown)
    && (forall job | job in shown :: job in Candidates(dbs[0], f) && Once(dbs, f, job))
    && (cursor.Some? ==> shown != [] && cursor.value == KeyOf(shown[|shown| - 1]))
    && (forall job | Stays(dbs, f, job) && job !in shown :: cursor.Some? && Less(KeyOf(job), cursor.value))
  }

  lemma FirstPage(dbs: seq<Table>, f: Filter, pages: seq<seq<Job>>)
    requires Walk(dbs, f, pages)
    ensures Progress(dbs, f, pages[0], OlderCursor(pages[0]))
  {
    var page := pages[0];
    assert IsPage(dbs[0], f, CursorFor(pages, 0), UI_JOBS_LIMIT, page);
    forall job | Stays(dbs, f, job) && job !in page
      ensures OlderCursor(page).Some? && Less(KeyOf(job), OlderCursor(page).value)
    {
      assert job in Rows(dbs[0], f, None);
      assert |page| > 0 ==> page[|page| - 1] in page;
    }
  }

  lemma NextPage(dbs: seq<Table>, f: Filter, shown: seq<Job>, cursor: Cursor, db: Table, page: seq<Job>)
    requires |dbs| > 0 && db in dbs && OnlyNewer(dbs[0], db)
    requires Progress(dbs, f, shown, Some(cursor)) && IsPage(db, f, Some(cursor), UI_JOBS_LIMIT, page)
    ensures Progress(dbs, f, shown + page, OlderCursor(page))
  {
    var all := shown + page;
    forall i, k | 0 <= i < k < |all|
      ensures Less(KeyOf(all[k]), KeyOf(all[i]))
    {
      if i < |shown| <= k { assert page[k - |shown|] in page; }
    }
    forall job | job in page
      ensures job in Candidates(dbs[0], f) && Once(dbs, f, job)
    {
      assert shown[|shown| - 1] in shown;
      var n :| 0 <= n < |dbs| && dbs[n] == db;
      assert job in dbs[n] && Matches(job, dbs[n][job], f);
    }
    forall job | Stays(dbs, f, job) && job !in all
      ensures OlderCursor(page).Some? && Less(KeyOf(job), OlderCursor(page).value)
    {
      assert job in Rows(db, f, Some(cursor));
      assert |page| > 0 ==> page[|page| - 1] in page;
    }
  }

  lemma {:induction false} WalkProgress(dbs: seq<Table>, f: Filter, pages: seq<seq<Job>>, n: nat)
    requires Walk(dbs, f, pages) && 0 < n <= |pages|
    ensures Progress(dbs, f, Shown(pages, n), OlderCursor(pages[n - 1]))
    ensures |Shown(pages, n)| == UI_JOBS_LIMIT * (n - 1) + |pages[n - 1]|
  {
    if n == 1 {
      FirstPage(dbs, f, pages);
      assert Shown(pages, 1) == pages[0];
    } else {
      WalkProgress(dbs, f, pages, n - 1);
      assert CursorFor(pages, n - 1).Some?;
      NextPage(dbs, f, Shown(pages, n - 1), CursorFor(pages, n - 1).value, dbs[n - 1], pages[n - 1]);
    }
  }

  lemma {:induction false} NoMoreThan(jobs: seq<Job>, rows: set<Job>)
    requires Descending(jobs) && forall job | job in jobs :: job in rows
    ensures |jobs| <= |rows|
    decreases |jobs|
  {
    if jobs != [] {
      var front, last := jobs[..|jobs| - 1], jobs[|jobs| - 1];
      NoMoreThan(front, rows - {last});
    }
  }

  /** Following the Older link shows jobs in strictly descending order, so none twice,
      and only jobs that were there at the start and matched when their page was read.
      When there is no further link, every job that was there and matched all along has
      been shown, whatever was inserted, deleted or updated in the meantime. And there is
      no endless walk: each page but the last takes a hundred of the jobs of queue, type
      and parent that were there at the start. */
  lemma OlderVisitsEachOnce(dbs: seq<Table>, f: Filter, pages: seq<seq<Job>>)
    requires Walk(dbs, f, pages)
    ensures var shown := Shown(pages, |pages|);
            && Descending(shown)
            && (forall job | job in shown :: job in Candidates(dbs[0], f) && Once(dbs, f, job))
            && (OlderCursor(pages[|pages| - 1]).None? ==> forall job | Stays(dbs, f, job) :: job in shown)
            && UI_JOBS_LIMIT * (|pages| - 1) <= |Candidates(dbs[0], f)|
  {
    var shown := Shown(pages, |pages|);
    WalkProgress(dbs, f, pages, |pages|);
    NoMoreThan(shown, Candidates(dbs[0], f));
  }

  // ------------------------------------------------ in terms of the columns

  /** What a page is, spelled out: the rows that the filters admit and that are older than
      the cursor, by creation time and then by id, newest first; fifty of them if the
      request asks for none or for more than a hundred, else as many as it asks for. */
  lemma PageRows(db: Table, f: Filter, before: Option<Cursor>, limit: int, page: seq<Job>)
    requires IsPage(db, f, before, limit, page)
    ensures forall job | job in page ::
              && job in db
              && (f.queue == "" || job.queue == f.queue) && (f.kind == "" || job.kind == f.kind)
              && (f.status.None? || db[job].status == f.status.value) && (f.parent.None? || db[job].parent == f.parent)
              && (before.Some? ==> job.createdAt < before.value.createdAt
                                   || (job.createdAt == before.value.createdAt && job.id < before.value.id))
    ensures forall i, k | 0 <= i < k < |page| ::
              page[k].createdAt < page[i].createdAt || (page[k].createdAt == page[i].createdAt && page[k].id < page[i].id)
    ensures |page| <= if limit < 1 || limit > 100 then 50 else limit
  {
    forall job | job in page
      ensures job in Rows(db, f, before)
    {
    }
  }

  /** A row that the filters admit is on the page, unless the page is full of newer ones. */
  lemma PageMisses(db: Table, f: Filter, before: Option<Cursor>, limit: int, page: seq<Job>, job: Job)
    requires IsPage(db, f, before, limit, page) && job in db && job !in page
    requires (f.queue == "" || job.queue == f.queue) && (f.kind == "" || job.kind == f.kind)
    requires (f.status.None? || db[job].status == f.status.value) && (f.parent.None? || db[job].parent == f.parent)
    requires before.Some? ==> job.createdAt < before.value.createdAt
                              || (job.createdAt == before.value.createdAt && job.id < before.value.id)
    ensures |page| == if limit < 1 || limit > 100 then 50 else limit
    ensures forall i | 0 <= i < |page| ::
              job.createdAt < page[i].createdAt || (job.createdAt == page[i].createdAt && job.id < page[i].id)
  {
    assert job in Rows(db, f, before);
    forall i | 0 <= i < |page|
      ensures Less(KeyOf(job), KeyOf(page[i]))
    {
      assert page[i] in page;
    }
  }

  /** The link to older jobs is there iff the page has a hundred rows, and starts behind the
      last of them. */
  lemma OlderLink(page: seq<Job>)
    ensures OlderCursor(page).Some? <==> |page| == 100
    ensures |page| == 100 ==> OlderCursor(page) == Some(Cursor(page[99].createdAt, page[99].id))
  {
  }
}
