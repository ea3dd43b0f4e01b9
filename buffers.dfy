/** The threshold rule of `store_events` on one category buffer, as a value-level
    specification: one append, and any number of appends in a row. */
module Buffers {
  import opened Records

  /** A buffer after one or more appends, and the batches flushed on the way, oldest first. */
  datatype Step = Step(buffer: seq<Record>, flushed: seq<seq<Record>>)

  /** One call of `store_events` on a buffer: append, and when the length reaches the
      capacity, send the whole buffer as one batch and clear it. */
  function Append(buffer: seq<Record>, capacity: int, content: Record): (s: Step)
    ensures |s.flushed| <= 1
    ensures s.flushed != [] <==> |buffer| + 1 >= capacity
    ensures s.flushed != [] ==> s.buffer == []
    // nothing is lost or reordered: the batch sent, then what stays buffered
    ensures Flatten(s.flushed) + s.buffer == buffer + [content]
  {
    var grown := buffer + [content];
    if |grown| >= capacity then
      assert Flatten([grown]) == grown + Flatten([]);
      Step([], [grown])
    else Step(grown, [])
  }

  /** The length a buffer of this capacity stays below between calls. A capacity below
      one still flushes on every append, so such a buffer stays empty. */
  function Limit(capacity: int): (n: nat)
    ensures n >= 1 && n >= capacity
    ensures capacity >= 1 ==> n == capacity
  {
    if capacity < 1 then 1 else capacity
  }

  /** A buffer below its limit stays below it, and every batch it flushes holds
      exactly the limit's number of records. */
  lemma AppendStaysBelowLimit(buffer: seq<Record>, capacity: int, content: Record)
    requires |buffer| < Limit(capacity)
    ensures var s := Append(buffer, capacity, content);
            && |s.buffer| < Limit(capacity)
            && |s.flushed| <= 1
            && (s.flushed == [] <==> |buffer| + 1 < Limit(capacity))
            && forall i :: 0 <= i < |s.flushed| ==> |s.flushed[i]| == Limit(capacity)
  {
  }

  /** Consecutive calls on one buffer, in the order the records arrive. */
  function Run(buffer: seq<Record>, capacity: int, contents: seq<Record>): (s: Step)
    decreases |contents|
  {
    if contents == [] then Step(buffer, [])
    else
      var before := Run(buffer, capacity, contents[..|contents| - 1]);
      var last := Append(before.buffer, capacity, contents[|contents| - 1]);
      Step(last.buffer, before.flushed + last.flushed)
  }

  /** The records of a list of batches, batch after batch. */
  function Flatten(batches: seq<seq<Record>>): (records: seq<Record>)
  {
    if batches == [] then [] else batches[0] + Flatten(batches[1..])
  }

  lemma {:induction false} FlattenConcat(a: seq<seq<Record>>, b: seq<seq<Record>>)
    ensures Flatten(a + b) == Flatten(a) + Flatten(b)
  {
    if a == [] {
      assert a + b == b;
    } else {
      assert (a + b)[0] == a[0] && (a + b)[1..] == a[1..] + b;
      FlattenConcat(a[1..], b);
    }
  }

  /** The regrouping step of the conservation proof, on plain sequences. */
  lemma Regroup(sent: seq<Record>, kept: seq<Record>, rest: seq<Record>, mid: seq<Record>,
                buffer: seq<Record>, init: seq<Record>, c: Record)
    requires sent + mid == buffer + init
    requires kept + rest == mid + [c]
    ensures (sent + kept) + rest == buffer + (init + [c])
  {
    calc {
      (sent + kept) + rest;
      sent + (kept + rest);
      sent + (mid + [c]);
      (sent + mid) + [c];
      (buffer + init) + [c];
      buffer + (init + [c]);
    }
  }

  /** Nothing is lost, duplicated or reordered: the flushed batches followed by what is
      left in the buffer are the old buffer followed by the appended records. */
  lemma {:induction false} RunConservesRecords(buffer: seq<Record>, capacity: int, contents: seq<Record>)
    ensures var s := Run(buffer, capacity, contents);
            Flatten(s.flushed) + s.buffer == buffer + contents
  {
    if contents != [] {
      var init, c := contents[..|contents| - 1], contents[|contents| - 1];
      var before := Run(buffer, capacity, init);
      var last := Append(before.buffer, capacity, c);
      RunConservesRecords(buffer, capacity, init);
      FlattenConcat(before.flushed, last.flushed);
      Regroup(Flatten(before.flushed), Flatten(last.flushed), last.buffer, before.buffer, buffer, init, c);
      assert init + [c] == contents;
    }
  }

  /** Starting below the limit, any run of calls ends below the limit and flushes only
      batches of exactly the limit's size. */
  lemma {:induction false} RunStaysBelowLimit(buffer: seq<Record>, capacity: int, contents: seq<Record>)
    requires |buffer| < Limit(capacity)
    ensures var s := Run(buffer, capacity, contents);
            && |s.buffer| < Limit(capacity)
            && forall i :: 0 <= i < |s.flushed| ==> |s.flushed[i]| == Limit(capacity)
  {
    if contents != [] {
      var init := contents[..|contents| - 1];
      var before := Run(buffer, capacity, init);
      RunStaysBelowLimit(buffer, capacity, init);
      AppendStaysBelowLimit(before.buffer, capacity, contents[|contents| - 1]);
    }
  }

  /** While the buffer plus the new records stay under the capacity, nothing is sent
      and the records accumulate in order. */
  lemma {:induction false} RunBelowCapacity(buffer: seq<Record>, capacity: int, contents: seq<Record>)
    requires |buffer| + |contents| < capacity
    ensures Run(buffer, capacity, contents) == Step(buffer + contents, [])
  {
    if contents != [] {
      var init := contents[..|contents| - 1];
      RunBelowCapacity(buffer, capacity, init);
      assert init + [contents[|contents| - 1]] == contents;
    }
  }

  /** The call that brings the length to the capacity sends everything at once, in
      insertion order, and empties the buffer. */
  lemma RunReachingCapacity(buffer: seq<Record>, capacity: int, contents: seq<Record>)
    requires contents != [] && |buffer| + |contents| == capacity
    ensures Run(buffer, capacity, contents) == Step([], [buffer + contents])
  {
    var init := contents[..|contents| - 1];
    RunBelowCapacity(buffer, capacity, init);
    assert buffer + init + [contents[|contents| - 1]] == buffer + contents;
  }

  /** From an empty buffer of capacity N, N - 1 calls send nothing and leave N - 1
      records; the N-th call sends exactly one batch of those N records. */
  lemma FillFromEmpty(capacity: int, records: seq<Record>)
    requires capacity >= 1 && |records| == capacity
    ensures Run([], capacity, records[..capacity - 1]) == Step(records[..capacity - 1], [])
    ensures Run([], capacity, records) == Step([], [records])
  {
    RunBelowCapacity([], capacity, records[..capacity - 1]);
    RunReachingCapacity([], capacity, records);
    assert [] + records == records;
  }
}
