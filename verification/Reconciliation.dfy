// What handleAppendEntries makes of a log, given that the log and the entries
// sent satisfy log matching. What AlreadyPresent promises carries the proofs.
module Reconciliation {
  import opened RaftTypes
  import opened RaftNode

  /** Log matching between a log and entries to be stored after position prev of it. */
  ghost predicate Consistent(log: seq<Entry>, prev: nat, entries: seq<Entry>) {
    && prev <= |log|
    && forall j :: 0 <= j < |entries| && prev + j < |log| && log[prev + j].term == entries[j].term ==>
         SameUpTo(log, prev, entries, j)
  }

  ghost predicate SameUpTo(log: seq<Entry>, prev: nat, entries: seq<Entry>, j: nat) {
    j < |entries| && prev + j < |log| && forall i :: 0 <= i <= j ==> log[prev + i] == entries[i]
  }

  /** The log already holds all the entries in place. */
  ghost predicate Present(log: seq<Entry>, prev: nat, entries: seq<Entry>) {
    prev + |entries| <= |log| && forall j :: 0 <= j < |entries| ==> log[prev + j] == entries[j]
  }

  lemma SameSoFar(log: seq<Entry>, prev: nat, entries: seq<Entry>)
    requires Consistent(log, prev, entries)
    ensures var k := AlreadyPresent(log, prev, entries); forall j :: 0 <= j < k ==> log[prev + j] == entries[j]
    ensures AlreadyPresent(log, prev, entries) == |entries| <==> Present(log, prev, entries)
  {
    var k := AlreadyPresent(log, prev, entries);
    if k > 0 {
      assert log[prev + (k - 1)].term == entries[k - 1].term;
      assert SameUpTo(log, prev, entries, k - 1);
    }
  }

  /** The log is unchanged if all the entries are present, and otherwise ends with exactly the entries sent. */
  lemma ReconcileIs(log: seq<Entry>, prev: nat, entries: seq<Entry>)
    requires Consistent(log, prev, entries)
    ensures Reconcile(log, prev, entries) == if Present(log, prev, entries) then log else log[..prev] + entries
  {
    SameSoFar(log, prev, entries);
    var k := AlreadyPresent(log, prev, entries);
    assert log[..prev + k] + entries[k..] == log[..prev] + entries;
  }

  lemma PresentStays(log: seq<Entry>, prev: nat, entries: seq<Entry>)
    requires Present(log, prev, entries)
    ensures Reconcile(log, prev, entries) == log
  {
  }

  /** Handling the same entries again changes nothing. */
  lemma Redelivered(log: seq<Entry>, prev: nat, entries: seq<Entry>)
    requires Consistent(log, prev, entries)
    ensures var once := Reconcile(log, prev, entries);
            Present(once, prev, entries) && Reconcile(once, prev, entries) == once
  {
    ReconcileIs(log, prev, entries);
    PresentStays(Reconcile(log, prev, entries), prev, entries);
  }

  /** A delayed shorter or earlier slice of entries already stored never shrinks or changes the log. */
  lemma DelayedSlice(log: seq<Entry>, prev: nat, entries: seq<Entry>, lo: nat, hi: nat)
    requires Consistent(log, prev, entries) && lo <= hi <= |entries|
    ensures var once := Reconcile(log, prev, entries);
            prev + lo <= |once| && Reconcile(once, prev + lo, entries[lo..hi]) == once
  {
    Redelivered(log, prev, entries);
    PresentPart(Reconcile(log, prev, entries), prev, entries, lo, hi);
    PresentStays(Reconcile(log, prev, entries), prev + lo, entries[lo..hi]);
  }

  lemma PresentPart(log: seq<Entry>, prev: nat, entries: seq<Entry>, lo: nat, hi: nat)
    requires Present(log, prev, entries) && lo <= hi <= |entries|
    ensures Present(log, prev + lo, entries[lo..hi])
  {
    forall j | 0 <= j < hi - lo ensures log[prev + lo + j] == entries[lo..hi][j] {
      assert entries[lo..hi][j] == entries[lo + j] == log[prev + (lo + j)];
    }
  }

  /** ... and a longer one extends it to just what it carries. */
  lemma LongerSlice(log: seq<Entry>, prev: nat, entries: seq<Entry>, more: seq<Entry>)
    requires Consistent(log, prev, entries) && !Present(log, prev, entries)
    ensures var once := Reconcile(log, prev, entries);
            prev <= |once| && Reconcile(once, prev, entries + more) == log[..prev] + entries + more
  {
    ReconcileIs(log, prev, entries);
    PresentThen(log[..prev] + entries, prev, entries, more);
    Rejoined(log[..prev], entries, more);
  }

  lemma Rejoined(a: seq<Entry>, b: seq<Entry>, x: seq<Entry>)
    ensures (a + b)[..|a| + |b|] + (b + x)[|b|..] == a + b + x
    ensures x == [] ==> a + b + x == a + b
  {
  }

  lemma PresentThen(log: seq<Entry>, prev: nat, entries: seq<Entry>, more: seq<Entry>)
    requires Present(log, prev, entries) && |log| == prev + |entries|
    ensures AlreadyPresent(log, prev, entries + more) == |entries|
  {
  }
}
