/** The task memory log: an in-place list of execution records with filters,
    a most-recent slice and a status summary. The timestamp, read from the
    clock in the source, is a parameter here. `R` is the type of recorded
    results and `M` that of metadata values (both arbitrary in the source). */
module AgentMemory {
  import opened Common
  import opened Text

  /** One recorded task execution. */
  datatype MemoryEntry<R, M> = MemoryEntry(
    timestamp: string,
    task: string,
    status: string,
    result: Option<R>,
    error: Option<string>,
    metadata: map<string, M>)

  /** Counts reported by `GetSummary`. */
  datatype Summary = Summary(total: nat, completed: nat, failed: nat, started: nat)

  /** The entry test of `filter_by_status`. */
  function HasStatus<R, M>(status: string): MemoryEntry<R, M> -> bool {
    (e: MemoryEntry<R, M>) => e.status == status
  }

  /** The entry test of `filter_by_task`, given the already lower-cased pattern. */
  function TaskMentions<R, M>(patternLower: string): MemoryEntry<R, M> -> bool {
    (e: MemoryEntry<R, M>) => Contains(patternLower, Lower(e.task))
  }

  /** Where Python's slice `s[start:]` begins in a sequence of length `len`:
      a negative start counts from the end and is clipped at 0, a start past
      the end is clipped to the end. */
  function SliceStart(start: int, len: nat): (k: nat)
    ensures k <= len
  {
    if start < 0 then (if start + len < 0 then 0 else start + len)
    else if start > len then len
    else start
  }

  function Min(a: int, b: int): int {
    if a <= b then a else b
  }

  /** The three counted statuses never add up to more entries than there are. */
  lemma {:induction false} StatusCountsBounded<R, M>(es: seq<MemoryEntry<R, M>>)
    ensures Count(es, HasStatus("completed")) + Count(es, HasStatus("failed")) + Count(es, HasStatus("started")) <= |es|
  {
    if es != [] {
      StatusCountsBounded(es[1..]);
    }
  }

  /** Appending an entry extends a status filter by that entry exactly when its status matches. */
  lemma FilterByStatusAppend<R, M>(es: seq<MemoryEntry<R, M>>, e: MemoryEntry<R, M>, status: string)
    ensures Filter(es + [e], HasStatus(status)) == Filter(es, HasStatus(status)) + (if e.status == status then [e] else [])
  {
    FilterAppend(es, [e], HasStatus(status));
    assert [e][1..] == [];
  }

  /** The `n` most recent entries of `es`: the intended meaning of `get_recent`. */
  function LastN<R, M>(es: seq<MemoryEntry<R, M>>, n: nat): (r: seq<MemoryEntry<R, M>>)
    ensures |r| == Min(n, |es|)
    ensures r == es[|es| - |r|..]
    ensures n == 0 ==> r == []
  {
    if n >= |es| then es else es[|es| - n..]
  }

  class Memory<R, M> {
    /** The recorded entries, oldest first. */
    var entries: seq<MemoryEntry<R, M>>

    constructor ()
      ensures entries == []
    {
      entries := [];
    }

    /** Appends one entry built from the arguments and returns it; earlier
        entries are unchanged, so each status filter grows by at most that entry. */
    method Record(timestamp: string, task: string, status: string,
                    result: Option<R> := None, error: Option<string> := None, metadata: map<string, M> := map[])
      returns (entry: MemoryEntry<R, M>)
      modifies this
      ensures entry == MemoryEntry(timestamp, task, status, result, error, metadata)
      ensures entries == old(entries) + [entry]
      ensures forall st :: FilterByStatus(st) == old(FilterByStatus(st)) + (if status == st then [entry] else [])
    {
      entry := MemoryEntry(timestamp, task, status, result, error, metadata);
      entries := entries + [entry];
      forall st
        ensures FilterByStatus(st) == old(FilterByStatus(st)) + (if status == st then [entry] else [])
      {
        FilterByStatusAppend(old(entries), entry, st);
      }
    }

    /** A copy of the list of entries: appending to or clearing the log
        later does not change the returned sequence. */
    method GetAll() returns (all: seq<MemoryEntry<R, M>>)
      ensures all == entries
      ensures |all| == GetSummary().total
    {
      all := entries;
    }

    /** Exactly the entries with the given status, in recorded order. */
    function FilterByStatus(status: string): (r: seq<MemoryEntry<R, M>>)
      reads this
      ensures forall i :: 0 <= i < |r| ==> r[i].status == status && r[i] in entries
      ensures forall i :: 0 <= i < |entries| && entries[i].status == status ==> entries[i] in r
      ensures |r| == Count(entries, HasStatus(status))
    {
      CountIsFilterLength(entries, HasStatus(status));
      Filter(entries, HasStatus(status))
    }

    /** Exactly the entries whose task contains the pattern, ignoring letter
        case, in recorded order; the empty pattern keeps every entry. */
    function FilterByTask(pattern: string): (r: seq<MemoryEntry<R, M>>)
      reads this
      ensures forall i :: 0 <= i < |r| ==> Contains(Lower(pattern), Lower(r[i].task)) && r[i] in entries
      ensures forall i :: 0 <= i < |entries| && Contains(Lower(pattern), Lower(entries[i].task)) ==> entries[i] in r
      ensures forall i :: 0 <= i < |entries| && Contains(pattern, entries[i].task) ==> entries[i] in r
      ensures pattern == "" ==> r == entries
    {
      var p := Lower(pattern);
      var keep := TaskMentions<R, M>(p);
      assert forall i :: 0 <= i < |entries| && Contains(pattern, entries[i].task) ==> keep(entries[i]) by {
        forall i | 0 <= i < |entries| && Contains(pattern, entries[i].task) ensures keep(entries[i]) {
          LowerPreservesContains(pattern, entries[i].task);
        }
      }
      if pattern == "" then
        assert forall i :: 0 <= i < |entries| ==> keep(entries[i]) by {
          forall i | 0 <= i < |entries| ensures keep(entries[i]) {
            EmptyContained(Lower(entries[i].task));
          }
        }
        FilterAllOrNothing(entries, keep);
        Filter(entries, keep)
      else
        Filter(entries, keep)
    }

    /** `entries[-n:]`: the last `n` entries for `0 < n`, all of them once `n`
        reaches the length, all of them for `n == 0`, and all but the first
        `-n` for negative `n`. */
    function GetRecent(n: int := 10): (r: seq<MemoryEntry<R, M>>)
      reads this
      ensures 0 < n ==> r == entries[|entries| - Min(n, |entries|)..]
      ensures n >= |entries| ==> r == entries
      ensures n == 0 ==> r == entries
      ensures n < 0 ==> r == entries[Min(-n, |entries|)..]
    {
      entries[SliceStart(-n, |entries|)..]
    }

    /** The number of entries and how many of them are completed, failed and
        started; all zero on an empty log. */
    function GetSummary(): (s: Summary)
      reads this
      ensures s.total == |entries|
      ensures s.completed == |FilterByStatus("completed")|
      ensures s.failed == |FilterByStatus("failed")|
      ensures s.started == |FilterByStatus("started")|
      ensures s.completed + s.failed + s.started <= s.total
      ensures entries == [] ==> s == Summary(0, 0, 0, 0)
    {
      StatusCountsBounded(entries);
      if |entries| == 0 then Summary(0, 0, 0, 0)
      else Summary(
        |entries|,
        Count(entries, HasStatus("completed")),
        Count(entries, HasStatus("failed")),
        Count(entries, HasStatus("started")))
    }

    /** Removes every entry. */
    method Clear()
      modifies this
      ensures entries == []
      ensures GetSummary() == Summary(0, 0, 0, 0)
    {
      entries := [];
    }
  }

  /** As written, `get_recent(0)` returns the whole non-empty log instead of
      no entries, because `-0` is the slice start 0. */
  lemma RecentZeroReturnsEverything<R, M>(m: Memory<R, M>)
    requires |m.entries| > 0
    ensures m.GetRecent(0) == m.entries
    ensures m.GetRecent(0) != LastN(m.entries, 0)
  {
  }

  /** For every positive `n`, the source's slice and the intended `LastN` agree. */
  lemma RecentAgreesForPositive<R, M>(m: Memory<R, M>, n: int)
    requires n > 0
    ensures m.GetRecent(n) == LastN(m.entries, n)
  {
  }
}
