/** Artifact search: the regex work budget, the page loop, and cursors. */
module Search {
  import opened Basics

  // ---------------------------------------------------------------- work budget

  const WORD: nat := 0x1_0000_0000_0000_0000

  const BUDGET: nat := 67108864

  /** Unsigned 64-bit arithmetic wraps. */
  function Wrap(x: int): nat {
    x % WORD
  }

  /** Charge one field, in 64-bit arithmetic throughout. */
  function AddWork(used: nat, instructions: int, size: int): Option<nat>
    requires used < WORD && Word(instructions) && Word(size)
  {
    if used > BUDGET || instructions <= 0 || size < 0 then None
    else if Wrap(size) > Wrap(BUDGET - used) / Wrap(instructions) then None
    else Some(Wrap(used + Wrap(Wrap(instructions) * Wrap(size))))
  }

  /** Signed 64-bit integers. */
  predicate Word(x: int) {
    -0x8000_0000_0000_0000 <= x < 0x8000_0000_0000_0000
  }

  lemma NoWrap(x: int)
    ensures 0 <= x < WORD ==> Wrap(x) == x
  {
  }

  /** Dividing first makes the wrapped arithmetic exact: a charge is accepted exactly when
      the true sum fits, and the accepted sum is the true one. */
  lemma AddWorkExact(used: nat, instructions: int, size: int)
    requires used < WORD && Word(instructions) && Word(size)
    ensures AddWork(used, instructions, size) ==
      if instructions > 0 && size >= 0 && used + instructions * size <= BUDGET
      then Some(used + instructions * size) else None
  {
    hide Wrap;
    Overdrawn(used, instructions, size);
    if used <= BUDGET && instructions > 0 && size >= 0 {
      NoWrap(instructions);
      NoWrap(size);
      NoWrap(BUDGET - used);
      DivideFirst(BUDGET - used, instructions, size);
      var product := instructions * size;
      NoWrap(product);
      NoWrap(used + product);
    }
  }

  lemma Overdrawn(used: nat, instructions: int, size: int)
    ensures instructions > 0 && size >= 0 ==> used + instructions * size >= used
  {
  }

  lemma DivideFirst(room: nat, instructions: nat, size: nat)
    requires instructions > 0
    ensures size <= room / instructions <==> instructions * size <= room
  {
    var q := room / instructions;
    assert room == instructions * q + room % instructions;
    if size <= q {
      Monotone(instructions, size, q);
    } else {
      Monotone(instructions, q + 1, size);
    }
  }

  lemma Monotone(k: nat, a: nat, b: nat)
    requires a <= b
    ensures k * a <= k * b
  {
  }

  /** UTF-8 text. */
  type Text = seq<Byte>

  function Bytes(fields: seq<Text>): nat {
    if fields == [] then 0 else Bytes(fields[..|fields| - 1]) + |fields[|fields| - 1]|
  }

  /** Charge every field of one record; refuse as soon as one does not fit. */
  method ChargeFields(used: nat, instructions: int, fields: seq<Text>) returns (work: Option<nat>)
    requires used <= BUDGET && 0 < instructions && Word(instructions)
    requires forall k :: 0 <= k < |fields| ==> Word(|fields[k]|)
    ensures
      var sum := used + instructions * Bytes(fields);
      work == if sum <= BUDGET then Some(sum) else None
  {
    hide AddWork;
    var sum := used;
    for k := 0 to |fields|
      invariant sum == used + instructions * Bytes(fields[..k]) <= BUDGET
    {
      assert fields[..k + 1][..k] == fields[..k];
      assert instructions * Bytes(fields[..k + 1]) == instructions * Bytes(fields[..k]) + instructions * |fields[k]|;
      AddWorkExact(sum, instructions, |fields[k]|);
      var next := AddWork(sum, instructions, |fields[k]|);
      if next.None? {
        BytesGrow(fields, k + 1);
        Monotone(instructions, Bytes(fields[..k + 1]), Bytes(fields));
        return None;
      }
      sum := next.value;
    }
    assert fields[..|fields|] == fields;
    return Some(sum);
  }

  lemma {:induction false} BytesGrow(fields: seq<Text>, k: nat)
    requires k <= |fields|
    ensures Bytes(fields[..k]) <= Bytes(fields)
    decreases |fields| - k
  {
    if k < |fields| {
      assert fields[..k + 1][..k] == fields[..k];
      BytesGrow(fields, k + 1);
    } else {
      assert fields[..k] == fields;
    }
  }

  // ---------------------------------------------------------------- matching

  /** What is searched of one record: identity metadata, then for each current head its
      identity, actor, type revision, title, content and canonical fields. */
  datatype Record = Record(typeId: nat, fields: seq<Text>)

  /** The verified repository at one cut of its sources. */
  datatype Snapshot = Snapshot(records: map<Id, Record>, cut: nat)

  datatype Query = Query(typeFilter: Option<nat>, regex: bool, text: Text)

  /** A compiled expression. */
  datatype Pattern = Pattern(instructions: int, accepts: Text -> bool)

  ghost predicate Contains(field: Text, text: Text) {
    exists i :: 0 <= i <= |field| && text <= field[i..]
  }

  ghost predicate Matches(fields: seq<Text>, q: Query, p: Pattern) {
    exists f :: f in fields && if q.regex then p.accepts(f) else Contains(f, q.text)
  }

  ghost function Wanted(s: Snapshot, q: Query): set<Id> {
    set id | id in s.records && (q.typeFilter.None? || s.records[id].typeId == q.typeFilter.value)
  }

  ghost function Selected(s: Snapshot, q: Query): seq<Id> {
    Sorted(Wanted(s, q))
  }

  /** Collect the records of the wanted type, then sort them. */
  method SelectRecords(s: Snapshot, q: Query) returns (ids: seq<Id>)
    ensures ids == Selected(s, q)
  {
    var wanted: set<Id> := {};
    var rest := s.records.Keys;
    while rest != {}
      invariant rest <= s.records.Keys
      invariant wanted == Wanted(s, q) - rest
      decreases |rest|
    {
      var id :| id in rest;
      if q.typeFilter == None || q.typeFilter == Some(s.records[id].typeId) {
        wanted := wanted + {id};
      }
      rest := rest - {id};
    }
    assert wanted == Wanted(s, q);
    ids := Sorted(wanted);
  }

  /** Plain substring search. */
  method FindText(field: Text, text: Text) returns (found: bool)
    ensures found <==> Contains(field, text)
  {
    for i := 0 to |field| + 1
      invariant forall k :: 0 <= k < i ==> !(text <= field[k..])
    {
      var here := i + |text| <= |field| && field[i..i + |text|] == text;
      HereOrNot(field, text, i);
      if here {
        return true;
      }
    }
    return false;
  }

  lemma HereOrNot(field: Text, text: Text, i: nat)
    requires i <= |field|
    ensures text <= field[i..] <==> i + |text| <= |field| && field[i..i + |text|] == text
  {
    if i + |text| <= |field| {
      assert field[i..][..|text|] == field[i..i + |text|];
    }
  }

  /** Does any field match? */
  method MatchRecord(fields: seq<Text>, q: Query, p: Pattern) returns (matched: bool)
    ensures matched <==> Matches(fields, q, p)
  {
    hide Contains;
    for i := 0 to |fields|
      invariant forall f :: f in fields[..i] ==> !(if q.regex then p.accepts(f) else Contains(f, q.text))
    {
      assert fields[i] in fields;
      if q.regex {
        matched := p.accepts(fields[i]);
      } else {
        matched := FindText(fields[i], q.text);
      }
      if matched {
        return true;
      }
    }
    return false;
  }

  lemma SelectedInside(s: Snapshot, q: Query)
    ensures forall k :: 0 <= k < |Selected(s, q)| ==> Selected(s, q)[k] in s.records
  {
    forall k | 0 <= k < |Selected(s, q)| ensures Selected(s, q)[k] in s.records {
      assert Selected(s, q)[k] in SetOf(Selected(s, q));
    }
  }

  /** The matching members of `ids`, in order. */
  ghost function Matching(s: Snapshot, q: Query, p: Pattern, ids: seq<Id>): (r: seq<Id>)
    requires forall k :: 0 <= k < |ids| ==> ids[k] in s.records
    ensures |r| <= |ids|
  {
    if ids == [] then []
    else
      var rest := Matching(s, q, p, ids[1..]);
      if Matches(s.records[ids[0]].fields, q, p) then [ids[0]] + rest else rest
  }

  /** The matching records of the suffix of the selection that starts at `offset`. */
  ghost function From(s: Snapshot, q: Query, p: Pattern, offset: nat): seq<Id>
    requires offset <= |Selected(s, q)|
  {
    SelectedInside(s, q);
    Matching(s, q, p, Selected(s, q)[offset..])
  }

  lemma FromNext(s: Snapshot, q: Query, p: Pattern, offset: nat)
    requires offset < |Selected(s, q)|
    ensures var id := Selected(s, q)[offset];
      && id in s.records
      && From(s, q, p, offset) ==
         (if Matches(s.records[id].fields, q, p) then [id] else []) + From(s, q, p, offset + 1)
  {
    SelectedInside(s, q);
    assert Selected(s, q)[offset..][1..] == Selected(s, q)[offset + 1..];
  }

  lemma {:induction false} MatchingMembers(s: Snapshot, q: Query, p: Pattern, ids: seq<Id>)
    requires Increasing(ids) && forall k :: 0 <= k < |ids| ==> ids[k] in s.records
    ensures Increasing(Matching(s, q, p, ids))
    ensures forall id :: id in Matching(s, q, p, ids) <==>
      id in ids && Matches(s.records[id].fields, q, p)
  {
    hide Matches;
    if ids != [] {
      MatchingMembers(s, q, p, ids[1..]);
      var rest := Matching(s, q, p, ids[1..]);
      forall k | 0 <= k < |rest| ensures ids[0] < rest[k] {
        assert rest[k] in ids[1..];
      }
      assert ids == [ids[0]] + ids[1..];
    }
  }

  // ---------------------------------------------------------------- pages

  datatype Cursor = Cursor(query: Query, cut: nat, offset: int)

  datatype Page = Page(items: seq<Id>, next: Option<Cursor>)

  datatype Code = InvalidInput | Checkpoint | ResourceLimit | ConcurrentUpdate

  ghost predicate CursorOk(s: Snapshot, q: Query, cursor: Option<Cursor>) {
    cursor.Some? ==>
      cursor.value.query == q && cursor.value.cut == s.cut && 0 < cursor.value.offset < |Selected(s, q)|
  }

  ghost function Start(s: Snapshot, q: Query, cursor: Option<Cursor>): nat
    requires CursorOk(s, q, cursor)
  {
    if cursor.Some? then cursor.value.offset else 0
  }

  /** The bytes the budget is charged for: those of every field of every selected record. */
  ghost function SelectedBytes(s: Snapshot, ids: seq<Id>): nat
    requires forall k :: 0 <= k < |ids| ==> ids[k] in s.records
  {
    if ids == [] then 0 else SelectedBytes(s, ids[..|ids| - 1]) + Bytes(s.records[ids[|ids| - 1]].fields)
  }

  ghost predicate WithinBudget(s: Snapshot, q: Query, p: Pattern) {
    SelectedInside(s, q);
    q.regex ==> p.instructions * SelectedBytes(s, Selected(s, q)) <= BUDGET
  }

  lemma {:induction false} SelectedBytesGrow(s: Snapshot, ids: seq<Id>, k: nat)
    requires k <= |ids| && forall i :: 0 <= i < |ids| ==> ids[i] in s.records
    ensures SelectedBytes(s, ids[..k]) <= SelectedBytes(s, ids)
    decreases |ids| - k
  {
    if k < |ids| {
      assert ids[..k + 1][..k] == ids[..k];
      SelectedBytesGrow(s, ids, k + 1);
    } else {
      assert ids[..k] == ids;
    }
  }

  /** Admit the whole selection before anything is matched: every field of every selected
      record is charged. */
  method Preflight(s: Snapshot, p: Pattern, ids: seq<Id>) returns (admitted: bool)
    requires MachineSized(s, p) && forall k :: 0 <= k < |ids| ==> ids[k] in s.records
    ensures admitted <==> p.instructions * SelectedBytes(s, ids) <= BUDGET
  {
    hide Bytes;
    var work: nat := 0;
    for k := 0 to |ids|
      invariant work == p.instructions * SelectedBytes(s, ids[..k]) <= BUDGET
    {
      assert ids[..k + 1][..k] == ids[..k];
      var fields := s.records[ids[k]].fields;
      assert SelectedBytes(s, ids[..k + 1]) == SelectedBytes(s, ids[..k]) + Bytes(fields);
      Distributes(p.instructions, SelectedBytes(s, ids[..k]), Bytes(fields));
      var next := ChargeFields(work, p.instructions, fields);
      if next.None? {
        SelectedBytesGrow(s, ids, k + 1);
        Monotone(p.instructions, SelectedBytes(s, ids[..k + 1]), SelectedBytes(s, ids));
        return false;
      }
      work := next.value;
    }
    assert ids[..|ids|] == ids;
    return true;
  }

  lemma Distributes(k: nat, a: nat, b: nat)
    ensures k * (a + b) == k * a + k * b
  {
  }

  /** Field lengths and program sizes are machine integers. */
  ghost predicate MachineSized(s: Snapshot, p: Pattern) {
    && 0 < p.instructions && Word(p.instructions)
    && forall id, f :: id in s.records && f in s.records[id].fields ==> Word(|f|)
  }

  /** The page of at most `limit` matches from `start`: a cursor exactly when another
      match remains, standing at that match. */
  ghost predicate IsPage(s: Snapshot, q: Query, p: Pattern, start: nat, limit: nat, page: Page) {
    && start <= |Selected(s, q)|
    && var rest := From(s, q, p, start);
       if |rest| <= limit then page == Page(rest, None)
       else
         && page.items == rest[..limit] && page.next.Some? && CursorOk(s, q, page.next)
         && From(s, q, p, Start(s, q, page.next)) == rest[limit..]
  }

  /** Read one page. `p` is the expression a regex query compiles to and `after` the
      source cut observed when the scan is over. */
  method ReadSearch(s: Snapshot, q: Query, p: Pattern, limit: int, cursor: Option<Cursor>, after: nat)
      returns (r: Outcome<Page, Code>)
    requires MachineSized(s, p)
    ensures r.Ok? <==>
      1 <= limit <= 200 && CursorOk(s, q, cursor) && WithinBudget(s, q, p) && after == s.cut
    ensures r.Ok? ==> IsPage(s, q, p, Start(s, q, cursor), limit, r.value)
    ensures r.Ok? ==> CursorOk(s, q, r.value.next)
    ensures r.Ok? ==> (r.value.next.Some? <==> |From(s, q, p, Start(s, q, cursor))| > limit)
    ensures r.Refused? ==>
      r.code == (if limit < 1 || limit > 200 then InvalidInput
                 else if !CursorOk(s, q, cursor) then Checkpoint
                 else if !WithinBudget(s, q, p) then ResourceLimit
                 else if cursor.Some? then Checkpoint
                 else ConcurrentUpdate)
  {
    hide Selected, From, SelectedBytes, MachineSized, Bytes;
    if limit < 1 || limit > 200 {
      return Refused(InvalidInput);
    }
    var ids := SelectRecords(s, q);
    SelectedInside(s, q);
    if cursor.Some? && (cursor.value.query != q || cursor.value.cut != s.cut
                        || cursor.value.offset <= 0 || cursor.value.offset >= |ids|) {
      return Refused(Checkpoint);
    }
    var start: nat := if cursor.Some? then cursor.value.offset else 0;
    if q.regex {
      var admitted := Preflight(s, p, ids);
      if !admitted {
        return Refused(ResourceLimit);
      }
    }
    var items, end := ScanPage(s, q, p, ids, start, limit);
    if after != s.cut {
      return Refused(if cursor.Some? then Checkpoint else ConcurrentUpdate);
    }
    r := Ok(Page(items, if end < |ids| then Some(Cursor(q, s.cut, end)) else None));
  }

  /** Scan on past the last item of the page up to the next match. */
  method ScanPage(s: Snapshot, q: Query, p: Pattern, ids: seq<Id>, start: nat, limit: nat)
      returns (items: seq<Id>, end: nat)
    requires ids == Selected(s, q) && start <= |ids| && limit >= 1
    ensures start <= end <= |Selected(s, q)| && |items| <= limit
    ensures items + From(s, q, p, end) == From(s, q, p, start)
    ensures if end == |Selected(s, q)| then From(s, q, p, end) == []
            else start < end && |items| == limit && From(s, q, p, end) != []
  {
    hide Matches, From, Selected;
    items, end := [], start;
    FromEnd(s, q, p);
    while end < |ids|
      invariant start <= end <= |ids| && |items| <= limit && (start == end ==> items == [])
      invariant items + From(s, q, p, end) == From(s, q, p, start)
    {
      FromNext(s, q, p, end);
      var matched := MatchRecord(s.records[ids[end]].fields, q, p);
      if matched && |items| == limit {
        break;
      }
      if matched {
        items := items + [ids[end]];
      }
      end := end + 1;
    }
  }

  lemma FromEnd(s: Snapshot, q: Query, p: Pattern)
    ensures From(s, q, p, |Selected(s, q)|) == []
  {
  }

  // ---------------------------------------------------------------- following cursors

  function Items(pages: seq<Page>): seq<Id> {
    if pages == [] then [] else Items(pages[..|pages| - 1]) + pages[|pages| - 1].items
  }

  /** Pages read one after another, each from the cursor of the one before it, with any
      page sizes. */
  ghost predicate Followed(s: Snapshot, q: Query, p: Pattern, limits: seq<nat>, pages: seq<Page>) {
    |limits| == |pages| && forall k :: 0 <= k < |pages| ==> Follows(s, q, p, limits, pages, k)
  }

  ghost predicate Follows(s: Snapshot, q: Query, p: Pattern, limits: seq<nat>, pages: seq<Page>, k: nat)
    requires k < |pages| == |limits|
  {
    && 1 <= limits[k] <= 200
    && (k > 0 ==> pages[k - 1].next.Some?)
    && var cursor := if k == 0 then None else pages[k - 1].next;
       CursorOk(s, q, cursor) && IsPage(s, q, p, Start(s, q, cursor), limits[k], pages[k])
  }

  lemma FollowedBefore(s: Snapshot, q: Query, p: Pattern, limits: seq<nat>, pages: seq<Page>)
    requires Followed(s, q, p, limits, pages) && pages != []
    ensures Followed(s, q, p, limits[..|pages| - 1], pages[..|pages| - 1])
  {
    hide IsPage, CursorOk, Start;
    var n := |pages| - 1;
    forall k | 0 <= k < n ensures Follows(s, q, p, limits[..n], pages[..n], k) {
      assert Follows(s, q, p, limits, pages, k);
    }
  }

  /** One page: its items, followed by what its cursor stands for, are what it began with. */
  lemma PageSplits(s: Snapshot, q: Query, p: Pattern, start: nat, limit: nat, page: Page)
    requires IsPage(s, q, p, start, limit, page)
    ensures CursorOk(s, q, page.next)
    ensures page.items + Remaining(s, q, p, page.next) == From(s, q, p, start)
    ensures page.next.Some? ==> |page.items| == limit
  {
  }

  /** The matches a cursor stands for; none after the last page. */
  ghost function Remaining(s: Snapshot, q: Query, p: Pattern, next: Option<Cursor>): seq<Id>
    requires CursorOk(s, q, next)
  {
    if next.Some? then From(s, q, p, Start(s, q, next)) else []
  }

  /** What the pages have delivered so far, followed by what the last cursor stands for. */
  lemma {:induction false} DeliveredAndRemaining(s: Snapshot, q: Query, p: Pattern, limits: seq<nat>, pages: seq<Page>)
    requires Followed(s, q, p, limits, pages) && pages != []
    ensures CursorOk(s, q, pages[|pages| - 1].next)
    ensures Items(pages) + Remaining(s, q, p, pages[|pages| - 1].next) == From(s, q, p, 0)
  {
    hide From, Selected, CursorOk, IsPage;
    var n := |pages| - 1;
    assert Follows(s, q, p, limits, pages, n);
    PageSplits(s, q, p, Start(s, q, if n == 0 then None else pages[n - 1].next), limits[n], pages[n]);
    if n > 0 {
      FollowedBefore(s, q, p, limits, pages);
      DeliveredAndRemaining(s, q, p, limits[..n], pages[..n]);
    }
  }

  /** Following cursors to the end yields every matching record exactly once, in ID order. */
  lemma EveryMatchOnce(s: Snapshot, q: Query, p: Pattern, limits: seq<nat>, pages: seq<Page>)
    requires Followed(s, q, p, limits, pages) && pages != [] && pages[|pages| - 1].next.None?
    ensures Increasing(Items(pages))
    ensures forall id: Id :: id in Items(pages) <==>
      && id in s.records && (q.typeFilter == None || q.typeFilter == Some(s.records[id].typeId))
      && exists f :: f in s.records[id].fields && FieldMatches(q, p, f)
  {
    hide Matching, Followed, Selected, Contains;
    DeliveredAndRemaining(s, q, p, limits, pages);
    assert Items(pages) == From(s, q, p, 0);
    SelectedInside(s, q);
    assert Selected(s, q)[0..] == Selected(s, q);
    SelectedMeans(s, q);
    MatchingMembers(s, q, p, Selected(s, q));
    forall f: Text ensures FieldMatches(q, p, f) <==> if q.regex then p.accepts(f) else Contains(f, q.text) {
      FieldMatchMeans(q, p, f);
    }
  }

  /** The expression accepts the field, or the text stands somewhere in it. */
  ghost predicate FieldMatches(q: Query, p: Pattern, field: Text) {
    if q.regex then p.accepts(field)
    else exists before, after :: field == before + q.text + after
  }

  lemma FieldMatchMeans(q: Query, p: Pattern, field: Text)
    ensures FieldMatches(q, p, field) <==> if q.regex then p.accepts(field) else Contains(field, q.text)
  {
    if Contains(field, q.text) {
      var i :| 0 <= i <= |field| && q.text <= field[i..];
      assert field == field[..i] + q.text + field[i + |q.text|..];
    }
    if before, after :| field == before + q.text + after {
      assert field[|before|..] == q.text + after;
    }
  }

  lemma SelectedMeans(s: Snapshot, q: Query)
    ensures Increasing(Selected(s, q))
    ensures forall id: Id :: id in Selected(s, q) <==>
      id in s.records && (q.typeFilter == None || q.typeFilter == Some(s.records[id].typeId))
  {
    forall id: Id ensures id in Selected(s, q) <==> id in SetOf(Selected(s, q)) {
    }
  }

  /** A page with a cursor is full, so the run ends after finitely many pages: every page
      but the last delivers at least one of the matches. */
  lemma {:induction false} CursorPagesAreFull(s: Snapshot, q: Query, p: Pattern, limits: seq<nat>, pages: seq<Page>)
    requires Followed(s, q, p, limits, pages)
    ensures forall k :: 0 <= k < |pages| && pages[k].next.Some? ==> |pages[k].items| == limits[k]
    ensures pages != [] ==> |Items(pages)| >= |pages| - 1
    ensures |pages| <= |From(s, q, p, 0)| + 1
  {
    hide From, Selected, IsPage, CursorOk;
    forall k | 0 <= k < |pages| && pages[k].next.Some? ensures |pages[k].items| == limits[k] >= 1 {
      assert Follows(s, q, p, limits, pages, k);
      PageSplits(s, q, p, Start(s, q, if k == 0 then None else pages[k - 1].next), limits[k], pages[k]);
    }
    forall k | 0 <= k < |pages| - 1 ensures pages[k].next.Some? {
      assert Follows(s, q, p, limits, pages, k + 1);
    }
    if pages != [] {
      AtLeastOneEach(pages[..|pages| - 1]);
      DeliveredAndRemaining(s, q, p, limits, pages);
    }
  }

  lemma {:induction false} AtLeastOneEach(pages: seq<Page>)
    requires forall k :: 0 <= k < |pages| ==> |pages[k].items| >= 1
    ensures |Items(pages)| >= |pages|
  {
    if pages != [] {
      AtLeastOneEach(pages[..|pages| - 1]);
    }
  }
}
