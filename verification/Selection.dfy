/**
  Choosing a bounded backlog page by page
  (orchestrator/application/request_filtered_investigations.py) from the keyset
  pages of libs/ctc_database/src/ctc_database/candidates.py.
*/
module Selection {
  import opened Prelude

  // ------------------------------------------------------------------- keys

  /** The keyset triple; primary keys are byte strings. */
  datatype Cursor = Cursor(createdAt: Time, externalId: string, pk: seq<int>)

  predicate BytesBefore(a: seq<int>, b: seq<int>) {
    b != [] && (a == [] || a[0] < b[0] || (a[0] == b[0] && BytesBefore(a[1..], b[1..])))
  }

  predicate TextBefore(a: string, b: string) {
    b != [] && (a == [] || a[0] < b[0] || (a[0] == b[0] && TextBefore(a[1..], b[1..])))
  }

  /** `(created_at, external_id, pk) < (...)`. */
  predicate Before(a: Cursor, b: Cursor) {
    || a.createdAt < b.createdAt
    || (a.createdAt == b.createdAt &&
          (|| TextBefore(a.externalId, b.externalId)
           || (a.externalId == b.externalId && BytesBefore(a.pk, b.pk))))
  }

  lemma {:induction false} TextTransitive(a: string, b: string, c: string)
    requires TextBefore(a, b) && TextBefore(b, c)
    ensures TextBefore(a, c) && a != c
  {
    if a != [] && a[0] == b[0] && b[0] == c[0] {
      TextTransitive(a[1..], b[1..], c[1..]);
    }
  }

  lemma {:induction false} BytesTransitive(a: seq<int>, b: seq<int>, c: seq<int>)
    requires BytesBefore(a, b) && BytesBefore(b, c)
    ensures BytesBefore(a, c) && a != c
  {
    if a != [] && a[0] == b[0] && b[0] == c[0] {
      BytesTransitive(a[1..], b[1..], c[1..]);
    }
  }

  lemma {:induction false} TextIrreflexive(a: string)
    ensures !TextBefore(a, a)
  {
    if a != [] { TextIrreflexive(a[1..]); }
  }

  lemma {:induction false} BytesIrreflexive(a: seq<int>)
    ensures !BytesBefore(a, a)
  {
    if a != [] { BytesIrreflexive(a[1..]); }
  }

  lemma BeforeTransitive(a: Cursor, b: Cursor, c: Cursor)
    requires Before(a, b) && Before(b, c)
    ensures Before(a, c)
  {
    if TextBefore(a.externalId, b.externalId) && TextBefore(b.externalId, c.externalId) {
      TextTransitive(a.externalId, b.externalId, c.externalId);
    }
    if BytesBefore(a.pk, b.pk) && BytesBefore(b.pk, c.pk) {
      BytesTransitive(a.pk, b.pk, c.pk);
    }
  }

  lemma BeforeIrreflexive(a: Cursor)
    ensures !Before(a, a)
  {
    TextIrreflexive(a.externalId);
    BytesIrreflexive(a.pk);
  }

  /** They agree up to `k`, where the first ends or has the smaller character. */
  predicate TextSplits(a: string, b: string, k: nat) {
    k <= |a| && k < |b| && a[..k] == b[..k] && (k == |a| || a[k] < b[k])
  }

  predicate BytesSplit(a: seq<int>, b: seq<int>, k: nat) {
    k <= |a| && k < |b| && a[..k] == b[..k] && (k == |a| || a[k] < b[k])
  }

  lemma {:induction false} TextOrder(a: string, b: string)
    ensures TextBefore(a, b) <==> exists k: nat :: TextSplits(a, b, k)
  {
    if a != [] && b != [] && a[0] == b[0] {
      TextOrder(a[1..], b[1..]);
      if k: nat :| TextSplits(a, b, k) {
        assert k > 0 && TextSplits(a[1..], b[1..], k - 1);
      }
      if k: nat :| TextSplits(a[1..], b[1..], k) {
        assert a[..k + 1] == [a[0]] + a[1..][..k] && b[..k + 1] == [b[0]] + b[1..][..k];
        assert TextSplits(a, b, k + 1);
      }
    } else if TextBefore(a, b) {
      assert TextSplits(a, b, 0);
    }
  }

  lemma {:induction false} BytesOrder(a: seq<int>, b: seq<int>)
    ensures BytesBefore(a, b) <==> exists k: nat :: BytesSplit(a, b, k)
  {
    if a != [] && b != [] && a[0] == b[0] {
      BytesOrder(a[1..], b[1..]);
      if k: nat :| BytesSplit(a, b, k) {
        assert k > 0 && BytesSplit(a[1..], b[1..], k - 1);
      }
      if k: nat :| BytesSplit(a[1..], b[1..], k) {
        assert a[..k + 1] == [a[0]] + a[1..][..k] && b[..k + 1] == [b[0]] + b[1..][..k];
        assert BytesSplit(a, b, k + 1);
      }
    } else if BytesBefore(a, b) {
      assert BytesSplit(a, b, 0);
    }
  }

  /** The keyset order, column by column: earlier, or as early with a smaller identifier, or both alike with a smaller key. */
  lemma KeysetOrder(a: Cursor, b: Cursor)
    ensures Before(a, b) <==>
              if a.createdAt != b.createdAt then a.createdAt < b.createdAt
              else if a.externalId != b.externalId then exists k: nat :: TextSplits(a.externalId, b.externalId, k)
              else exists k: nat :: BytesSplit(a.pk, b.pk, k)
  {
    TextOrder(a.externalId, b.externalId);
    TextIrreflexive(a.externalId);
    BytesOrder(a.pk, b.pk);
  }

  predicate Ascending(s: seq<Cursor>) {
    forall i, j :: 0 <= i < j < |s| ==> Before(s[i], s[j])
  }

  // ------------------------------------------------------------------ pages

  datatype SourceRow = SourceRow(
    raised: Time, externalId: Option<string>, pk: seq<int>, name: string,
    resolved: bool, closed: bool, linked: bool)

  /** The WHERE clause without the keyset condition. */
  predicate Eligible(row: SourceRow, name: string, createdAtGte: Option<Time>) {
    && !row.resolved && !row.closed && row.externalId.Some? && row.name == name && row.linked
    && (createdAtGte.Some? ==> row.raised >= createdAtGte.value)
  }

  function Key(row: SourceRow): Cursor
    requires row.externalId.Some?
  {
    Cursor(row.raised, row.externalId.value, row.pk)
  }

  /** The eligible rows' keys. */
  function Candidates(rows: seq<SourceRow>, name: string, createdAtGte: Option<Time>): seq<Cursor> {
    if rows == [] then []
    else (if Eligible(rows[0], name, createdAtGte) then [Key(rows[0])] else []) + Candidates(rows[1..], name, createdAtGte)
  }

  function Take<T>(s: seq<T>, n: nat): seq<T> { if n < |s| then s[..n] else s }

  /** The keyset condition: everything strictly after the cursor. */
  function Following(candidates: seq<Cursor>, after: Option<Cursor>): seq<Cursor> {
    if after.None? then candidates
    else if candidates == [] then []
    else (if Before(after.value, candidates[0]) then [candidates[0]] else []) + Following(candidates[1..], after)
  }

  /** One page of a source whose candidates, in key order, are `candidates`. */
  function PageOf(candidates: seq<Cursor>, after: Option<Cursor>, limit: nat): seq<Cursor> {
    Take(Following(candidates, after), limit)
  }

  /** The one query of `read_page`: all predicates at once, on rows in the order of ORDER BY, less its LIMIT. */
  function Answer(rows: seq<SourceRow>, name: string, createdAtGte: Option<Time>, after: Option<Cursor>): seq<Cursor> {
    if rows == [] then []
    else
      (if Eligible(rows[0], name, createdAtGte) && (after.None? || Before(after.value, Key(rows[0])))
       then [Key(rows[0])] else [])
      + Answer(rows[1..], name, createdAtGte, after)
  }

  /** The query answers with the candidates that follow the cursor. */
  lemma {:induction false} QueryAnswersPage(rows: seq<SourceRow>, name: string, createdAtGte: Option<Time>,
                                            after: Option<Cursor>, limit: nat)
    ensures Answer(rows, name, createdAtGte, after) == Following(Candidates(rows, name, createdAtGte), after)
    ensures Take(Answer(rows, name, createdAtGte, after), limit) == PageOf(Candidates(rows, name, createdAtGte), after, limit)
  {
    if rows != [] {
      QueryAnswersPage(rows[1..], name, createdAtGte, after, limit);
      var rest := Candidates(rows[1..], name, createdAtGte);
      if Eligible(rows[0], name, createdAtGte) {
        assert ([Key(rows[0])] + rest)[1..] == rest;
      } else {
        assert [] + rest == rest;
      }
    }
  }

  /** The key of an open, unresolved, linked exception of that name, not raised before the given time. */
  predicate Offers(row: SourceRow, name: string, createdAtGte: Option<Time>, c: Cursor) {
    && row.externalId == Some(c.externalId) && row.raised == c.createdAt && row.pk == c.pk
    && row.resolved == false && row.closed == false && row.linked == true && row.name == name
    && (match createdAtGte case None => true case Some(earliest) => earliest <= row.raised)
  }

  /** Which rows give candidates. */
  lemma {:induction false} CandidatesAre(rows: seq<SourceRow>, name: string, createdAtGte: Option<Time>, c: Cursor)
    ensures c in Candidates(rows, name, createdAtGte) <==> exists row :: row in rows && Offers(row, name, createdAtGte, c)
  {
    if rows != [] {
      CandidatesAre(rows[1..], name, createdAtGte, c);
      assert forall row :: row in rows <==> row == rows[0] || row in rows[1..];
      assert Offers(rows[0], name, createdAtGte, c) <==> Eligible(rows[0], name, createdAtGte) && c == Key(rows[0]);
    }
  }

  predicate InKeyOrder(rows: seq<SourceRow>) {
    forall i, j :: 0 <= i < j < |rows| && rows[i].externalId.Some? && rows[j].externalId.Some? ==> Before(Key(rows[i]), Key(rows[j]))
  }

  /** Primary keys are unique, so rows in key order give strictly ascending candidates. */
  lemma {:induction false} CandidatesAscend(rows: seq<SourceRow>, name: string, createdAtGte: Option<Time>)
    requires InKeyOrder(rows)
    ensures Ascending(Candidates(rows, name, createdAtGte))
    ensures forall c :: c in Candidates(rows, name, createdAtGte) ==>
              exists i :: 0 <= i < |rows| && rows[i].externalId.Some? && c == Key(rows[i])
  {
    if rows != [] {
      CandidatesAscend(rows[1..], name, createdAtGte);
      var rest := Candidates(rows[1..], name, createdAtGte);
      forall c | c in rest
        ensures exists i :: 0 < i < |rows| && rows[i].externalId.Some? && c == Key(rows[i])
      {
        var i :| 0 <= i < |rows[1..]| && rows[1..][i].externalId.Some? && c == Key(rows[1..][i]);
        assert rows[i + 1] == rows[1..][i];
      }
      if Eligible(rows[0], name, createdAtGte) {
        assert Candidates(rows, name, createdAtGte) == [Key(rows[0])] + rest;
        forall j | 0 <= j < |rest|
          ensures Before(Key(rows[0]), rest[j])
        {
          assert rest[j] in rest;
        }
      } else {
        assert Candidates(rows, name, createdAtGte) == rest;
      }
    }
  }

  lemma {:induction false} AllFollow(candidates: seq<Cursor>, after: Cursor)
    requires forall c :: c in candidates ==> Before(after, c)
    ensures Following(candidates, Some(after)) == candidates
  {
    if candidates != [] {
      AllFollow(candidates[1..], after);
    }
  }

  /** Reading after the n-th candidate continues with the next one: no row is skipped or repeated. */
  lemma {:induction false} PageContinues(candidates: seq<Cursor>, n: nat, limit: nat)
    requires Ascending(candidates) && n <= |candidates|
    ensures PageOf(candidates, if n == 0 then None else Some(candidates[n - 1]), limit) == Take(candidates[n..], limit)
  {
    if n == 0 {
      assert candidates[0..] == candidates;
    } else {
      FollowingDropsSeen(candidates, n);
    }
  }

  lemma {:induction false} FollowingDropsSeen(candidates: seq<Cursor>, n: nat)
    requires Ascending(candidates) && 0 < n <= |candidates|
    ensures Following(candidates, Some(candidates[n - 1])) == candidates[n..]
  {
    var last := candidates[n - 1];
    if n == 1 {
      BeforeIrreflexive(last);
      AllFollow(candidates[1..], last);
    } else {
      var rest := candidates[1..];
      assert rest[n - 2] == last && rest[n - 1..] == candidates[n..];
      FollowingDropsSeen(rest, n - 1);
      if Before(last, candidates[0]) {
        BeforeTransitive(candidates[0], last, candidates[0]);
        BeforeIrreflexive(candidates[0]);
      }
    }
  }

  // -------------------------------------------------------- the simple form

  function NotCompleted(candidates: seq<Cursor>, completed: set<string>): seq<string> {
    if candidates == [] then []
    else
      NotCompleted(candidates[..|candidates| - 1], completed)
      + (var id := candidates[|candidates| - 1].externalId; if id in completed then [] else [id])
  }

  /** `dict.fromkeys`: the first occurrence of each, in order. */
  function FirstOccurrences(ids: seq<string>): (r: seq<string>)
    ensures forall id :: id in r <==> id in ids
    ensures forall i, j :: 0 <= i < j < |r| ==> r[i] != r[j]
  {
    if ids == [] then []
    else
      var before := FirstOccurrences(ids[..|ids| - 1]);
      var last := ids[|ids| - 1];
      assert forall id :: id in ids <==> id in ids[..|ids| - 1] || id == last;
      if last in before then before else before + [last]
  }

  function FirstIndex(ids: seq<string>, id: string): (i: nat)
    requires id in ids
    ensures i < |ids| && ids[i] == id && id !in ids[..i]
  {
    if ids[0] == id then 0
    else
      var i := FirstIndex(ids[1..], id) + 1;
      assert ids[..i] == [ids[0]] + ids[1..][..i - 1];
      i
  }

  /** Deduplication keeps the order of first occurrence. */
  lemma {:induction false} FirstOccurrencesInOrder(ids: seq<string>, i: nat, j: nat)
    requires i < j < |FirstOccurrences(ids)|
    ensures FirstIndex(ids, FirstOccurrences(ids)[i]) < FirstIndex(ids, FirstOccurrences(ids)[j])
  {
    var before, last := ids[..|ids| - 1], ids[|ids| - 1];
    var x, y := FirstOccurrences(ids)[i], FirstOccurrences(ids)[j];
    SameFirstIndex(before, ids, x);
    if j < |FirstOccurrences(before)| {
      FirstOccurrencesInOrder(before, i, j);
      SameFirstIndex(before, ids, y);
    } else {
      var k := FirstIndex(ids, y);
      assert k < |before| ==> before[k] == y;
    }
  }

  lemma SameFirstIndex(before: seq<string>, ids: seq<string>, id: string)
    requires before <= ids && id in before
    ensures FirstIndex(ids, id) == FirstIndex(before, id)
  {
    var i := FirstIndex(before, id);
    assert ids[i] == id && ids[..i] == before[..i];
  }

  /** Filter, then deduplicate. */
  function Found(candidates: seq<Cursor>, completed: set<string>): seq<string> {
    FirstOccurrences(NotCompleted(candidates, completed))
  }

  /** Filter, deduplicate, take. */
  function Chosen(candidates: seq<Cursor>, completed: set<string>, maximum: nat): seq<string> {
    Take(Found(candidates, completed), maximum)
  }

  /** The turn of the inner loop for one row. */
  function Choose(selected: seq<string>, row: Cursor, completed: set<string>): seq<string> {
    if row.externalId in completed || row.externalId in selected then selected else selected + [row.externalId]
  }

  /** One more candidate changes the simple form as one turn of the inner loop does. */
  lemma FoundGrows(candidates: seq<Cursor>, next: Cursor, completed: set<string>)
    ensures Found(candidates + [next], completed) == Choose(Found(candidates, completed), next, completed)
  {
    var longer := candidates + [next];
    assert longer[..|longer| - 1] == candidates;
    var ids, ids' := NotCompleted(candidates, completed), NotCompleted(longer, completed);
    if next.externalId !in completed {
      assert ids'[..|ids'| - 1] == ids;
    } else {
      assert ids' == ids;
    }
  }

  lemma {:induction false} FoundPrefix(candidates: seq<Cursor>, n: nat, completed: set<string>)
    requires n <= |candidates|
    ensures Found(candidates[..n], completed) <= Found(candidates, completed)
    decreases |candidates| - n
  {
    if n < |candidates| {
      FoundGrows(candidates[..n], candidates[n], completed);
      assert candidates[..n] + [candidates[n]] == candidates[..n + 1];
      FoundPrefix(candidates, n + 1, completed);
    } else {
      assert candidates[..n] == candidates;
    }
  }

  /** Once a part of the candidates yields the maximum, the rest cannot change the choice. */
  lemma EnoughFound(part: seq<Cursor>, whole: seq<Cursor>, completed: set<string>, maximum: nat)
    requires part <= whole && |Found(part, completed)| >= maximum
    ensures Chosen(whole, completed, maximum) == Chosen(part, completed, maximum)
  {
    assert whole[..|part|] == part;
    FoundPrefix(whole, |part|, completed);
  }

  lemma FullChoice(candidates: seq<Cursor>, completed: set<string>, maximum: nat)
    ensures |Chosen(candidates, completed, maximum)| >= maximum ==> |Found(candidates, completed)| >= maximum
  {
  }

  lemma ChosenOfNothing(completed: set<string>, maximum: nat)
    ensures Found([], completed) == [] && Chosen([], completed, maximum) == []
  {
  }

  lemma {:induction false} NoneCompleted(candidates: seq<Cursor>, completed: set<string>)
    ensures forall id :: id in NotCompleted(candidates, completed) ==> id !in completed
  {
    if candidates != [] {
      NoneCompleted(candidates[..|candidates| - 1], completed);
    }
  }

  /** The choice is bounded, free of duplicates and free of completed exceptions. */
  ghost predicate Clean(ids: seq<string>, completed: set<string>, maximum: nat) {
    && |ids| <= maximum
    && (forall i, j :: 0 <= i < j < |ids| ==> ids[i] != ids[j])
    && (forall id :: id in ids ==> id !in completed)
  }

  lemma ChosenIsClean(candidates: seq<Cursor>, completed: set<string>, maximum: nat)
    ensures Clean(Chosen(candidates, completed, maximum), completed, maximum)
  {
    NoneCompleted(candidates, completed);
    var found := Found(candidates, completed);
    assert forall id :: id in found ==> id !in completed;
  }

  // --------------------------------------------------------------- the loop

  datatype SelectionError = PageExceededBound | CursorDidNotAdvance

  /** `_validate_page`: within its bound, and strictly ascending from the cursor on. */
  method ValidatePage(page: seq<Cursor>, after: Option<Cursor>, pageSize: nat) returns (error: Option<SelectionError>)
    ensures error.None? <==>
              && |page| <= pageSize
              && (forall i :: 0 < i < |page| ==> Before(page[i - 1], page[i]))
              && (page != [] && after.Some? ==> Before(after.value, page[0]))
    ensures error == Some(PageExceededBound) <==> |page| > pageSize
  {
    if |page| > pageSize {
      return Some(PageExceededBound);
    }
    var previous := after;
    for i := 0 to |page|
      invariant previous == if i == 0 then after else Some(page[i - 1])
      invariant forall k :: 0 < k < i ==> Before(page[k - 1], page[k])
      invariant i > 0 && after.Some? ==> Before(after.value, page[0])
    {
      if previous.Some? && !Before(previous.value, page[i]) {
        return Some(CursorDidNotAdvance);
      }
      previous := Some(page[i]);
    }
    return None;
  }

  /**
    Where pages come from: a stable source is a fixed ascending list of
    candidates; any other source answers as it likes out of a finite universe.
  */
  datatype Source = Stable(candidates: seq<Cursor>) | Unstable(universe: set<Cursor>)

  ghost predicate ValidSource(s: Source) {
    s.Stable? ==> Ascending(s.candidates)
  }

  predicate InUniverse(s: Source, c: Cursor) {
    match s
    case Stable(candidates) => c in candidates
    case Unstable(universe) => c in universe
  }

  method ReadPage(source: Source, after: Option<Cursor>, limit: nat) returns (page: seq<Cursor>)
    ensures source.Stable? ==> page == PageOf(source.candidates, after, limit)
    ensures source.Unstable? ==> forall c :: c in page ==> InUniverse(source, c)
  {
    match source {
      case Stable(candidates) => page := PageOf(candidates, after, limit);
      case Unstable(universe) =>
        var anything: seq<Cursor> := *;
        page := if forall c :: c in anything ==> c in universe then anything else [];
    }
  }

  /** What the validated cursor has not passed yet; it shrinks with every page. */
  ghost function Unread(source: Source, cursor: Option<Cursor>): set<Cursor> {
    var all := match source
               case Stable(candidates) => (set c | c in candidates)
               case Unstable(universe) => universe;
    set c | c in all && (cursor.Some? ==> Before(cursor.value, c))
  }

  lemma CursorAdvances(source: Source, cursor: Option<Cursor>, page: seq<Cursor>)
    requires page != [] && InUniverse(source, page[|page| - 1])
    requires forall i :: 0 < i < |page| ==> Before(page[i - 1], page[i])
    requires cursor.Some? ==> Before(cursor.value, page[0])
    ensures Unread(source, Some(page[|page| - 1])) < Unread(source, cursor)
  {
    var last := page[|page| - 1];
    LastAfterFirst(page);
    if cursor.Some? && last != page[0] {
      BeforeTransitive(cursor.value, page[0], last);
    }
    BeforeIrreflexive(last);
    assert last in Unread(source, cursor) && last !in Unread(source, Some(last));
    forall c | c in Unread(source, Some(last))
      ensures c in Unread(source, cursor)
    {
      if cursor.Some? {
        BeforeTransitive(cursor.value, last, c);
      }
    }
  }

  lemma {:induction false} LastAfterFirst(page: seq<Cursor>)
    requires page != []
    requires forall i :: 0 < i < |page| ==> Before(page[i - 1], page[i])
    ensures page[|page| - 1] == page[0] || Before(page[0], page[|page| - 1])
  {
    if |page| > 1 {
      var shorter := page[..|page| - 1];
      LastAfterFirst(shorter);
      if shorter[|shorter| - 1] != page[0] {
        BeforeTransitive(page[0], shorter[|shorter| - 1], page[|page| - 1]);
      }
    }
  }

  /** A slice of an ascending list ascends, and continues what is before it. */
  lemma SliceFollows(candidates: seq<Cursor>, n: nat, m: nat)
    requires Ascending(candidates) && n <= m <= |candidates|
    ensures candidates[..n] + candidates[n..m] == candidates[..m]
    ensures forall i :: 0 < i < m - n ==> Before(candidates[n..m][i - 1], candidates[n..m][i])
    ensures 0 < n < m ==> Before(candidates[n - 1], candidates[n..m][0])
  {
  }

  /** A page of a stable source extends what was seen, and a short one reaches the end. */
  lemma StablePage(candidates: seq<Cursor>, seen: seq<Cursor>, pageSize: nat, page: seq<Cursor>)
    requires Ascending(candidates) && seen <= candidates && pageSize > 0
    requires page == PageOf(candidates, if seen == [] then None else Some(seen[|seen| - 1]), pageSize)
    ensures seen + page <= candidates
    ensures |page| < pageSize ==> seen + page == candidates
    ensures |page| <= pageSize
    ensures forall i :: 0 < i < |page| ==> Before(page[i - 1], page[i])
    ensures seen != [] && page != [] ==> Before(seen[|seen| - 1], page[0])
    ensures forall c :: c in page ==> c in candidates
  {
    hide Before, PageOf, Ascending;
    var n := |seen|;
    var m := if n + pageSize < |candidates| then n + pageSize else |candidates|;
    assert seen == candidates[..n];
    PageContinues(candidates, n, pageSize);
    assert page == candidates[n..m];
    SliceFollows(candidates, n, m);
    assert candidates[..|candidates|] == candidates;
  }

  /** One turn keeps a choice distinct, and adds only what is not completed. */
  lemma ChooseKeepsClean(selected: seq<string>, row: Cursor, completed: set<string>, known: set<string>, maximum: nat)
    requires Clean(selected, completed, maximum) && |selected| < maximum && completed <= known
    ensures Clean(Choose(selected, row, known), completed, maximum)
  {
  }

  /**
    Rows of one page, with the history read for it: chosen in order until the
    maximum is reached.
  */
  method ChooseFromPage(selected: seq<string>, page: seq<Cursor>, known: set<string>, maximum: nat,
                        ghost seen: seq<Cursor>, ghost completed: set<string>)
    returns (chosen: seq<string>)
    requires |selected| < maximum && completed <= known && Clean(selected, completed, maximum)
    ensures selected <= chosen && Clean(chosen, completed, maximum)
    ensures forall k :: |selected| <= k < |chosen| ==> chosen[k] !in known
    ensures selected == Found(seen, known) ==>
              && chosen == Chosen(seen + page, known, maximum)
              && (|chosen| < maximum ==> chosen == Found(seen + page, known))
  {
    hide Clean, Before, NotCompleted, FirstOccurrences;
    chosen := selected;
    ghost var done := seen;
    ghost var simple := selected == Found(seen, known);
    for i := 0 to |page|
      invariant |chosen| < maximum && selected <= chosen && Clean(chosen, completed, maximum)
      invariant forall k :: |selected| <= k < |chosen| ==> chosen[k] !in known
      invariant done == seen + page[..i] && (simple ==> chosen == Found(done, known))
    {
      FoundGrows(done, page[i], known);
      ChooseKeepsClean(chosen, page[i], completed, known, maximum);
      done := done + [page[i]];
      assert done == seen + page[..i + 1];
      chosen := Choose(chosen, page[i], known);
      if |chosen| == maximum {
        assert done <= seen + page;
        if simple {
          EnoughFound(done, seen + page, known, maximum);
          ChosenOfEnough(done, known, maximum);
        }
        return;
      }
    }
    assert done == seen + page;
  }

  lemma ChosenOfEnough(candidates: seq<Cursor>, completed: set<string>, maximum: nat)
    ensures |Found(candidates, completed)| <= maximum ==> Chosen(candidates, completed, maximum) == Found(candidates, completed)
  {
  }

  /** `completed_exception_ids` in a unit of work of its own, per page: a history that may have grown meanwhile. */
  method ReadHistory(known: set<string>, grows: bool) returns (completed: set<string>)
    ensures known <= completed && (!grows ==> completed == known)
  {
    var more: set<string> := *;
    completed := if grows then known + more else known;
  }

  /**
    `_select`.  On a stable source and a fixed history the paged scan is the
    simple form, whatever the page size.  On any source over a finite universe,
    and with a history that grows from page to page, it terminates and yields
    distinct exceptions none of which was completed at the start - nor, by
    ChooseFromPage, when its page was read.
  */
  method Select(source: Source, completed: set<string>, grows: bool, maximum: nat, pageSize: nat)
    returns (r: Result<seq<string>, SelectionError>)
    requires ValidSource(source) && pageSize > 0
    ensures source.Stable? && !grows ==> r == Ok(Chosen(source.candidates, completed, maximum))
    ensures r.Ok? ==> Clean(r.value, completed, maximum)
  {
    ChosenOfNothing(completed, maximum);
    ChosenIsClean([], completed, maximum);
    hide Before, PageOf, Found, Chosen, Clean, Unread, Ascending, InUniverse;
    var selected: seq<string> := [];
    var cursor: Option<Cursor> := None;
    var known := completed;
    ghost var seen: seq<Cursor> := [];
    ghost var all := if source.Stable? then source.candidates else [];
    while |selected| < maximum
      invariant Clean(selected, completed, maximum) && completed <= known && (!grows ==> known == completed)
      invariant !grows ==> selected == Chosen(seen, completed, maximum)
      invariant !grows && |selected| < maximum ==> selected == Found(seen, completed)
      invariant cursor == if seen == [] then None else Some(seen[|seen| - 1])
      invariant source.Stable? ==> seen <= all
      decreases Unread(source, cursor)
    {
      var page := ReadPage(source, cursor, pageSize);
      if source.Stable? {
        StablePage(all, seen, pageSize, page);
      }
      if page == [] {
        assert seen + page == seen;
        break;
      }
      var error := ValidatePage(page, cursor, pageSize);
      if error.Some? {
        return Err(error.value);
      }
      assert page[|page| - 1] in page;
      CursorAdvances(source, cursor, page);
      known := ReadHistory(known, grows);
      selected := ChooseFromPage(selected, page, known, maximum, seen, completed);
      seen := seen + page;
      cursor := Some(page[|page| - 1]);
      if |page| < pageSize {
        break;
      }
    }
    if source.Stable? && seen != all && !grows {
      FullChoice(seen, completed, maximum);
      EnoughFound(seen, all, completed, maximum);
    }
    r := Ok(selected);
  }
}
