/** `CumulocityService`: the inventory calls of the microservice's own tenant.
    Writes can be switched off (`disablePlatformWrites`); large inventories
    are walked page by page, ordered by id, with the last id seen as cursor. */
module C8yService {
  import opened Wrappers
  import opened Records
  import opened JavaString

  /** `processManagedObjects`' page size. */
  const PAGE_SIZE: int := 2000

  const FILTER_PREFIX: string := "$filter=_id gt '"
  const ORDER_BY: string := "$orderby=_id asc"
  const NPE: string := "NullPointerException"

  /** A write sent to the inventory. */
  datatype InventoryCall = CreateMo(mo: ManagedObject) | UpdateMo(mo: ManagedObject) | DeleteMo(id: string)

  /** `buildQueryById(query, last_id)`. */
  function BuildQueryById(query: Option<string>, lastId: string): string
  {
    FILTER_PREFIX + lastId + "'" + Middle(query) + ORDER_BY
  }

  /** What goes between the id filter and the order: the caller's query,
      conjoined in parentheses, when it is not blank. */
  function Middle(query: Option<string>): string
  {
    if !IsBlank(query) then " and (" + query.value + ")" else ""
  }

  /** The cursor a page query asks for: the text between the filter prefix
      and the next quote. */
  function CursorOf(q: string): string
  {
    if |q| < |FILTER_PREFIX| then ""
    else
      var rest := q[|FILTER_PREFIX|..];
      rest[..IndexOf(rest, '\'')]
  }

  /** Every page query starts with the id filter on the cursor and ends with
      the id order; the caller's query is inserted, in parentheses, iff it is
      not blank; and the cursor can be read back from the query as long as it
      holds no quote. */
  lemma BuildQueryByIdShape(query: Option<string>, lastId: string)
    ensures var q := BuildQueryById(query, lastId);
      && q[..|FILTER_PREFIX| + |lastId| + 1] == FILTER_PREFIX + lastId + "'"
      && q[|q| - |ORDER_BY|..] == ORDER_BY
      && (IsBlank(query) <==> |q| == |FILTER_PREFIX| + |lastId| + 1 + |ORDER_BY|)
      && (!IsBlank(query) ==> q[|FILTER_PREFIX| + |lastId| + 1..|q| - |ORDER_BY|] == " and (" + query.value + ")")
      && ('\'' !in lastId ==> CursorOf(q) == lastId)
  {
    ThreeParts(FILTER_PREFIX + lastId + "'", Middle(query), ORDER_BY);
    if '\'' !in lastId {
      CursorReadBack(lastId, Middle(query));
    }
  }

  /** The three parts of a concatenation can be cut back out of it. */
  lemma ThreeParts<T>(a: seq<T>, b: seq<T>, c: seq<T>)
    ensures var s := a + b + c;
      && |s| == |a| + |b| + |c|
      && s[..|a|] == a && s[|s| - |c|..] == c && s[|a|..|s| - |c|] == b
  {
    var s := a + b + c;
    assert s[..|a|] == a;
    assert s[|s| - |c|..] == c;
    assert s[|a|..|s| - |c|] == b;
  }

  /** The cursor is read back from a page query whose cursor holds no
      quote, whatever comes between the filter and the order. */
  lemma CursorReadBack(lastId: string, middle: string)
    requires '\'' !in lastId
    ensures CursorOf(FILTER_PREFIX + lastId + "'" + middle + ORDER_BY) == lastId
  {
    var q := FILTER_PREFIX + lastId + "'" + middle + ORDER_BY;
    var rest := q[|FILTER_PREFIX|..];
    assert rest == lastId + ['\''] + (middle + ORDER_BY);
    IndexOfPrefix(lastId, '\'', middle + ORDER_BY);
    assert rest[..|lastId|] == lastId;
  }

  /** The state of `processManagedObjects`' loop: the cursor, the done flag,
      every object handed to the action (`processedDevicesCount` is its
      length), the error counter and every page query sent. */
  datatype Paging = Paging(lastId: string, done: bool, processed: seq<ManagedObject>, errors: int, queries: seq<string>)

  /** How many objects of `s` the action throws on. */
  function Failures(failsOn: ManagedObject -> bool, s: seq<ManagedObject>): nat
  {
    if s == [] then 0
    else Failures(failsOn, s[..|s| - 1]) + (if failsOn(s[|s| - 1]) then 1 else 0)
  }

  /** One round of the loop. Page `n` is what the inventory answers to the
      `n`-th query (or the exception it throws). */
  function PageStep(query: Option<string>, fetch: (nat, string) -> Result<seq<ManagedObject>>,
                    failsOn: ManagedObject -> bool, st: Paging): Paging
  {
    var q := BuildQueryById(query, st.lastId);
    Advance(failsOn, st, q, fetch(|st.queries|, q))
  }

  /** The state after query `q` was sent and answered with `page`. The action
      runs on every object of the page; reading the id of the page's last
      object throws when it has none, which skips the cursor and done
      updates. */
  function Advance(failsOn: ManagedObject -> bool, st: Paging, q: string, page: Result<seq<ManagedObject>>): (r: Paging)
    ensures r.queries == st.queries + [q]
    ensures page.Err? ==> r == st.(errors := st.errors + 1, queries := r.queries)
    ensures page.Ok? ==>
      && r.processed == st.processed + page.value
      && r.errors >= st.errors + Failures(failsOn, page.value)
      && (page.value == [] ==> r.done && r.lastId == st.lastId)
      && (page.value != [] && page.value[|page.value| - 1].id.Some? ==>
            r.lastId == page.value[|page.value| - 1].id.value && (r.done <==> |page.value| < PAGE_SIZE))
      && (page.value != [] && page.value[|page.value| - 1].id.None? ==> r.lastId == st.lastId && r.done == st.done)
  {
    var st1 := st.(queries := st.queries + [q]);
    match page
    case Err(_) => st1.(errors := st1.errors + 1)
    case Ok(objects) =>
      var st2 := st1.(processed := st1.processed + objects, errors := st1.errors + Failures(failsOn, objects));
      if |objects| > 0 && objects[|objects| - 1].id.None? then st2.(errors := st2.errors + 1)
      else st2.(lastId := if |objects| > 0 then objects[|objects| - 1].id.value else st.lastId, done := |objects| < PAGE_SIZE)
  }

  /** At most `fuel` rounds, stopping once done. */
  function Iterate(query: Option<string>, fetch: (nat, string) -> Result<seq<ManagedObject>>,
                   failsOn: ManagedObject -> bool, fuel: nat, st: Paging): Paging
    decreases fuel
  {
    if st.done || fuel == 0 then st else Iterate(query, fetch, failsOn, fuel - 1, PageStep(query, fetch, failsOn, st))
  }

  const InitialPaging: Paging := Paging("0", false, [], 0, [])

  /** The cursor is "0" or the id of an object already processed. */
  predicate CursorSeen(st: Paging)
  {
    st.lastId == "0" || exists i :: 0 <= i < |st.processed| && st.processed[i].id == Some(st.lastId)
  }

  /** The loop is done only after a page that came back shorter than a full
      page. */
  predicate DoneAfterShortPage(fetch: (nat, string) -> Result<seq<ManagedObject>>, st: Paging)
  {
    st.done ==>
      && |st.queries| > 0
      && var last := fetch(|st.queries| - 1, st.queries[|st.queries| - 1]);
      && last.Ok? && |last.value| < PAGE_SIZE
  }

  /** One round keeps the cursor an id already processed, is done only
      after a short page, and never lowers the error counter. */
  lemma PageStepInvariants(query: Option<string>, fetch: (nat, string) -> Result<seq<ManagedObject>>,
                           failsOn: ManagedObject -> bool, st: Paging)
    requires !st.done && CursorSeen(st)
    ensures CursorSeen(PageStep(query, fetch, failsOn, st))
    ensures DoneAfterShortPage(fetch, PageStep(query, fetch, failsOn, st))
    ensures PageStep(query, fetch, failsOn, st).errors >= st.errors
  {
    var q := BuildQueryById(query, st.lastId);
    var r := Advance(failsOn, st, q, fetch(|st.queries|, q));
    AdvanceKeepsCursor(failsOn, st, q, fetch(|st.queries|, q));
    assert r.queries[|r.queries| - 1] == q;
  }

  /** Answering a query keeps the cursor an id already processed. */
  lemma AdvanceKeepsCursor(failsOn: ManagedObject -> bool, st: Paging, q: string, page: Result<seq<ManagedObject>>)
    requires CursorSeen(st)
    ensures CursorSeen(Advance(failsOn, st, q, page))
  {
    var r := Advance(failsOn, st, q, page);
    if page.Ok? && page.value != [] && page.value[|page.value| - 1].id.Some? {
      assert r.processed[|r.processed| - 1] == page.value[|page.value| - 1];
      SeenAtEnd(r);
    } else {
      AdvanceCountsFailures(failsOn, st, q, page);
      SeenInPrefix(st, r);
    }
  }

  /** A cursor kept while objects are only appended stays seen. */
  lemma SeenInPrefix(st: Paging, r: Paging)
    requires CursorSeen(st) && r.lastId == st.lastId
    requires |st.processed| <= |r.processed| && r.processed[..|st.processed|] == st.processed
    ensures CursorSeen(r)
  {
    if st.lastId != "0" {
      var i :| 0 <= i < |st.processed| && st.processed[i].id == Some(st.lastId);
      assert r.processed[..|st.processed|][i] == r.processed[i];
    }
  }

  /** A cursor taken from the last object processed is seen. */
  lemma SeenAtEnd(r: Paging)
    requires r.processed != [] && r.processed[|r.processed| - 1].id == Some(r.lastId)
    ensures CursorSeen(r)
  {
  }

  /** Whatever the pages, the cursor stays an id already processed, the run
      is done only after a short page, and the error counter only grows. */
  lemma {:induction false} IterateInvariants(query: Option<string>, fetch: (nat, string) -> Result<seq<ManagedObject>>,
                                             failsOn: ManagedObject -> bool, fuel: nat, st: Paging)
    decreases fuel
    requires CursorSeen(st) && DoneAfterShortPage(fetch, st)
    ensures var r := Iterate(query, fetch, failsOn, fuel, st);
      CursorSeen(r) && DoneAfterShortPage(fetch, r) && r.errors >= st.errors
  {
    if !st.done && fuel > 0 {
      PageStepInvariants(query, fetch, failsOn, st);
      IterateInvariants(query, fetch, failsOn, fuel - 1, PageStep(query, fetch, failsOn, st));
    }
  }

  /** Every object fetched is handed to the action, in order: a failing
      action stops neither its page nor the loop, and each failure adds one
      to the error counter. */
  lemma {:induction false} IterateCountsFailures(query: Option<string>, fetch: (nat, string) -> Result<seq<ManagedObject>>,
                                                 failsOn: ManagedObject -> bool, fuel: nat, st: Paging)
    decreases fuel
    ensures var r := Iterate(query, fetch, failsOn, fuel, st);
      && |st.processed| <= |r.processed| && r.processed[..|st.processed|] == st.processed
      && r.errors - st.errors >= Failures(failsOn, r.processed) - Failures(failsOn, st.processed)
  {
    if !st.done && fuel > 0 {
      var q := BuildQueryById(query, st.lastId);
      var st' := PageStep(query, fetch, failsOn, st);
      AdvanceCountsFailures(failsOn, st, q, fetch(|st.queries|, q));
      IterateCountsFailures(query, fetch, failsOn, fuel - 1, st');
      var r := Iterate(query, fetch, failsOn, fuel - 1, st');
      assert Iterate(query, fetch, failsOn, fuel, st) == r;
      PrefixOfPrefix(st.processed, st'.processed, r.processed);
    }
  }

  /** Answering a query keeps the objects handed over so far and counts at
      least the failures of the page it adds. */
  lemma AdvanceCountsFailures(failsOn: ManagedObject -> bool, st: Paging, q: string, page: Result<seq<ManagedObject>>)
    ensures var r := Advance(failsOn, st, q, page);
      && |st.processed| <= |r.processed| && r.processed[..|st.processed|] == st.processed
      && r.errors - st.errors >= Failures(failsOn, r.processed) - Failures(failsOn, st.processed)
  {
    if page.Ok? {
      FailuresAppend(failsOn, st.processed, page.value);
      assert (st.processed + page.value)[..|st.processed|] == st.processed;
    }
  }

  /** A prefix of a prefix is a prefix. */
  lemma PrefixOfPrefix<T>(a: seq<T>, b: seq<T>, c: seq<T>)
    requires |a| <= |b| && b[..|a|] == a
    requires |b| <= |c| && c[..|b|] == b
    ensures c[..|a|] == a
  {
    assert c[..|b|][..|a|] == c[..|a|];
  }

  lemma {:induction false} FailuresAppend(failsOn: ManagedObject -> bool, a: seq<ManagedObject>, b: seq<ManagedObject>)
    decreases |b|
    ensures Failures(failsOn, a + b) == Failures(failsOn, a) + Failures(failsOn, b)
  {
    if b != [] {
      assert (a + b)[..|a + b| - 1] == a + b[..|b| - 1];
      assert (a + b)[|a + b| - 1] == b[|b| - 1];
      FailuresAppend(failsOn, a, b[..|b| - 1]);
    } else {
      assert a + b == a;
    }
  }

  /** The delete calls for `ids`, in order. */
  function DeleteCalls(ids: seq<string>): (r: seq<InventoryCall>)
    ensures |r| == |ids| && forall i :: 0 <= i < |ids| ==> r[i] == DeleteMo(ids[i])
  {
    if ids == [] then [] else [DeleteMo(ids[0])] + DeleteCalls(ids[1..])
  }

  /** The ids of `mos`, or None when one of them has none. */
  function Ids(mos: seq<ManagedObject>): (r: Option<seq<string>>)
    ensures r.Some? <==> forall i :: 0 <= i < |mos| ==> mos[i].id.Some?
    ensures r.Some? ==> |r.value| == |mos| && forall i :: 0 <= i < |mos| ==> mos[i].id == Some(r.value[i])
  {
    if mos == [] then Some([])
    else match Ids(mos[..|mos| - 1])
      case None => None
      case Some(init) =>
        if mos[|mos| - 1].id.None? then None else Some(init + [mos[|mos| - 1].id.value])
  }

  /** The loop collecting the ids of a list of objects; reading the id of an
      object without one throws. */
  method CollectIds(mos: seq<ManagedObject>) returns (ids: Option<seq<string>>)
    ensures ids == Ids(mos)
  {
    var acc: seq<string> := [];
    for i := 0 to |mos|
      invariant Ids(mos[..i]) == Some(acc)
    {
      assert mos[..i + 1][..i] == mos[..i];
      if mos[i].id.None? {
        return None;
      }
      acc := acc + [mos[i].id.value];
    }
    assert mos[..|mos|] == mos;
    return Some(acc);
  }

  class CumulocityService {
    /** `CumulocityService.disablePlatformWrites`. */
    const disablePlatformWrites: bool
    /** The positions, among all writes sent, of the ones the platform refuses. */
    const failing: set<nat>
    /** The id the platform gives the `n`-th write when it creates an object. */
    const newId: nat -> string
    /** Every write sent to the platform, in order. */
    var calls: seq<InventoryCall>

    constructor(disablePlatformWrites: bool, failing: set<nat>, newId: nat -> string)
      ensures this.disablePlatformWrites == disablePlatformWrites
      ensures this.failing == failing && this.newId == newId && calls == []
    {
      this.disablePlatformWrites := disablePlatformWrites;
      this.failing := failing;
      this.newId := newId;
      calls := [];
    }

    /** `createManagedObject`: null, without a call, when writes are off;
        otherwise the created object with its new id, or the exception. */
    method CreateManagedObject(mo: ManagedObject) returns (r: Result<Option<ManagedObject>>)
      modifies this`calls
      ensures disablePlatformWrites ==> r == Ok(None) && calls == old(calls)
      ensures !disablePlatformWrites ==>
        && calls == old(calls) + [CreateMo(mo)]
        && r == (if |old(calls)| in failing then Err("create failed")
                 else Ok(Some(mo.(id := Some(newId(|old(calls)|))))))
    {
      if disablePlatformWrites {
        return Ok(None);
      }
      var n := |calls|;
      calls := calls + [CreateMo(mo)];
      if n in failing {
        return Err("create failed");
      }
      return Ok(Some(mo.(id := Some(newId(n)))));
    }

    /** `updateManagedObject`: null, without a call, when writes are off. */
    method UpdateManagedObject(mo: ManagedObject) returns (r: Result<Option<ManagedObject>>)
      modifies this`calls
      ensures disablePlatformWrites ==> r == Ok(None) && calls == old(calls)
      ensures !disablePlatformWrites ==>
        && calls == old(calls) + [UpdateMo(mo)]
        && r == (if |old(calls)| in failing then Err("update failed") else Ok(Some(mo)))
    {
      if disablePlatformWrites {
        return Ok(None);
      }
      var n := |calls|;
      calls := calls + [UpdateMo(mo)];
      if n in failing {
        return Err("update failed");
      }
      return Ok(Some(mo));
    }

    /** `deleteManagedObject`: returns without a call when writes are off. */
    method DeleteManagedObject(id: string) returns (outcome: Outcome)
      modifies this`calls
      ensures disablePlatformWrites ==> outcome == Pass && calls == old(calls)
      ensures !disablePlatformWrites ==>
        && calls == old(calls) + [DeleteMo(id)]
        && outcome == (if |old(calls)| in failing then Fail("delete failed") else Pass)
    {
      if disablePlatformWrites {
        return Pass;
      }
      var n := |calls|;
      calls := calls + [DeleteMo(id)];
      if n in failing {
        return Fail("delete failed");
      }
      return Pass;
    }

    /** `deleteManagedObjectsByFilter`, given what the filter query returns
        (null, the objects, or the exception). All ids are collected first,
        so an object without an id stops the method before any delete; a
        failing delete is swallowed and the others still go out. */
    method DeleteManagedObjectsByFilter(objects: Result<Option<seq<ManagedObject>>>) returns (outcome: Outcome)
      modifies this`calls
      ensures objects.Err? ==> outcome == Fail(objects.msg) && calls == old(calls)
      ensures objects == Ok(None) ==> outcome == Pass && calls == old(calls)
      ensures objects.Ok? && objects.value.Some? && Ids(objects.value.value).None? ==>
        outcome == Fail(NPE) && calls == old(calls)
      ensures objects.Ok? && objects.value.Some? && Ids(objects.value.value).Some? ==>
        && outcome == Pass
        && calls == old(calls) + (if disablePlatformWrites then [] else DeleteCalls(Ids(objects.value.value).value))
    {
      if objects.Err? {
        return Fail(objects.msg);
      }
      if objects.value.None? {
        return Pass;
      }
      var idsToDelete := CollectIds(objects.value.value);
      if idsToDelete.None? {
        return Fail(NPE);
      }
      DeleteEach(idsToDelete.value);
      return Pass;
    }

    /** The `forEach` over the collected ids: one delete per id, in order,
        each failure swallowed. */
    method DeleteEach(ids: seq<string>)
      modifies this`calls
      ensures calls == old(calls) + (if disablePlatformWrites then [] else DeleteCalls(ids))
    {
      for i := 0 to |ids|
        invariant calls == old(calls) + (if disablePlatformWrites then [] else DeleteCalls(ids[..i]))
      {
        var _ := DeleteManagedObject(ids[i]);
        assert ids[..i + 1] == ids[..i] + [ids[i]];
        DeleteCallsAppend(ids[..i], [ids[i]]);
      }
      assert ids[..|ids|] == ids;
    }

    /** The inner loop over one page: every object is processed, counting
        the ones whose processing throws. */
    static method ProcessPage(page: seq<ManagedObject>, failsOn: ManagedObject -> bool,
                              processed: seq<ManagedObject>, errors: int)
      returns (processed': seq<ManagedObject>, errors': int)
      ensures processed' == processed + page
      ensures errors' == errors + Failures(failsOn, page)
    {
      processed', errors' := processed, errors;
      for j := 0 to |page|
        invariant processed' == processed + page[..j]
        invariant errors' == errors + Failures(failsOn, page[..j])
      {
        assert page[..j + 1][..j] == page[..j];
        if failsOn(page[j]) {
          errors' := errors' + 1;
        }
        processed' := processed' + [page[j]];
        assert page[..j + 1] == page[..j] + [page[j]];
      }
      assert page[..|page|] == page;
    }

    /** `processManagedObjects(query, action)` for at most `fuel` rounds. */
    method ProcessManagedObjects(query: Option<string>, fetch: (nat, string) -> Result<seq<ManagedObject>>,
                                 failsOn: ManagedObject -> bool, fuel: nat)
      returns (st: Paging)
      ensures st == Iterate(query, fetch, failsOn, fuel, InitialPaging)
    {
      st := InitialPaging;
      var n := fuel;
      while !st.done && n > 0
        invariant Iterate(query, fetch, failsOn, n, st) == Iterate(query, fetch, failsOn, fuel, InitialPaging)
        decreases n
      {
        st := Round(query, fetch, failsOn, st);
        n := n - 1;
      }
    }

    /** One round of the loop: query the page after the cursor, then take
        in the answer. */
    static method Round(query: Option<string>, fetch: (nat, string) -> Result<seq<ManagedObject>>,
                        failsOn: ManagedObject -> bool, st: Paging)
      returns (st': Paging)
      ensures st' == PageStep(query, fetch, failsOn, st)
    {
      var q := BuildQueryById(query, st.lastId);
      var page := fetch(|st.queries|, q);
      st' := TakeAnswer(failsOn, st, q, page);
    }

    /** The rest of a round: process the page, then move the cursor to its
        last object. */
    static method TakeAnswer(failsOn: ManagedObject -> bool, st: Paging, q: string, page: Result<seq<ManagedObject>>)
      returns (st': Paging)
      ensures st' == Advance(failsOn, st, q, page)
    {
      var lastId, done, processed, processingErrors := st.lastId, st.done, st.processed, st.errors;
      var queries := st.queries + [q];
      if page.Err? {
        processingErrors := processingErrors + 1;
      } else {
        var managedObjects := page.value;
        var size := |managedObjects|;
        if size > 0 {
          processed, processingErrors := ProcessPage(managedObjects, failsOn, processed, processingErrors);
          if managedObjects[size - 1].id.None? {
            processingErrors := processingErrors + 1;
          } else {
            lastId := managedObjects[size - 1].id.value;
            done := size < PAGE_SIZE;
          }
        } else {
          done := size < PAGE_SIZE;
        }
      }
      st' := Paging(lastId, done, processed, processingErrors, queries);
    }
  }

  lemma {:induction false} DeleteCallsAppend(a: seq<string>, b: seq<string>)
    decreases |a|
    ensures DeleteCalls(a + b) == DeleteCalls(a) + DeleteCalls(b)
  {
    if a != [] {
      assert (a + b)[1..] == a[1..] + b;
      DeleteCallsAppend(a[1..], b);
    }
  }
}
