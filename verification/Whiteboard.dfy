/** The volatile whiteboard and its change log. */
module Whiteboard {
  import opened Wrappers

  /** A change as it is logged, without its time. */
  datatype Change<T> = Change(number: nat, key: string, previous: Option<T>, value: T)

  datatype Snapshot<T> = Snapshot(values: map<string, T>, sequence: nat)

  /** One call: `publish`, or `batch_publish` with its items in order. */
  datatype Call<T> = Publish(key: string, value: T) | BatchPublish(items: seq<(string, T)>)

  function Lookup<T>(values: map<string, T>, key: string): Option<T> {
    if key in values then Some(values[key]) else None
  }

  /** The values that follow from these changes. */
  function Replay<T>(values: map<string, T>, changes: seq<Change<T>>): map<string, T> {
    if changes == [] then values
    else
      var last := changes[|changes| - 1];
      Replay(values, changes[..|changes| - 1])[last.key := last.value]
  }

  /** Changes strictly newer than a sequence number. */
  function Newer<T>(changes: seq<Change<T>>, sequence: nat): seq<Change<T>> {
    if changes == [] then []
    else
      var last := changes[|changes| - 1];
      Newer(changes[..|changes| - 1], sequence) + if last.number > sequence then [last] else []
  }

  /** The numbers are contiguous from 1, and each change records the value that it replaced. */
  ghost predicate IsLog<T>(changes: seq<Change<T>>) {
    changes != [] ==>
      var so, last := changes[..|changes| - 1], changes[|changes| - 1];
      IsLog(so) && last.number == |changes| && last.previous == Lookup(Replay(map[], so), last.key)
  }

  /** The items of a call as changes to a log. */
  function Logged<T>(changes: seq<Change<T>>, items: seq<(string, T)>): seq<Change<T>> {
    if items == [] then changes
    else
      var so := Logged(changes, items[..|items| - 1]);
      var (key, value) := items[|items| - 1];
      so + [Change(|so| + 1, key, Lookup(Replay(map[], so), key), value)]
  }

  function ItemsOf<T>(c: Call<T>): seq<(string, T)> {
    match c
    case Publish(key, value) => [(key, value)]
    case BatchPublish(items) => items
  }

  /** The log after a history of calls. */
  function History<T>(calls: seq<Call<T>>): seq<Change<T>> {
    if calls == [] then [] else Logged(History(calls[..|calls| - 1]), ItemsOf(calls[|calls| - 1]))
  }

  class InMemoryWhiteboard<T(==)> {
    var values: map<string, T>
    var sequence: nat
    var changes: seq<Change<T>>

    ghost predicate Valid() reads this {
      IsLog(changes) && sequence == |changes| && values == Replay(map[], changes)
    }

    constructor ()
      ensures Valid() && changes == []
    {
      values, sequence, changes := map[], 0, [];
    }

    method Publish(key: string, value: T) returns (number: nat)
      requires Valid()
      modifies this
      ensures Valid() && changes == Logged(old(changes), [(key, value)]) && number == |changes|
    {
      var previous := if key in values then Some(values[key]) else None;
      LogGrows(changes, key, value);
      sequence := sequence + 1;
      values := values[key := value];
      changes := changes + [Change(sequence, key, previous, value)];
      assert Logged(old(changes), []) == old(changes);
      return sequence;
    }

    method BatchPublish(items: seq<(string, T)>) returns (number: nat)
      requires Valid()
      modifies this
      ensures Valid() && changes == Logged(old(changes), items) && number == |changes|
    {
      number := sequence;
      for k := 0 to |items|
        invariant Valid() && changes == Logged(old(changes), items[..k]) && number == sequence
      {
        LoggedSnoc(old(changes), items, k);
        var (key, value) := items[k];
        var previous := if key in values then Some(values[key]) else None;
        LogGrows(changes, key, value);
        sequence := sequence + 1;
        values := values[key := value];
        changes := changes + [Change(sequence, key, previous, value)];
        number := sequence;
      }
      assert items[..|items|] == items;
    }

    method TakeSnapshot() returns (s: Snapshot<T>)
      requires Valid()
      ensures s == Snapshot(Replay(map[], changes), |changes|)
    {
      s := Snapshot(values, sequence);
    }

    method ChangesSince(since: nat) returns (newer: seq<Change<T>>)
      ensures newer == Newer(changes, since)
    {
      newer := [];
      for k := 0 to |changes|
        invariant newer == Newer(changes[..k], since)
      {
        assert changes[..k + 1][..k] == changes[..k];
        if changes[k].number > since {
          newer := newer + [changes[k]];
        }
      }
      assert changes[..|changes|] == changes;
    }
  }

  // ----- The log -----

  lemma LoggedSnoc<T>(changes: seq<Change<T>>, items: seq<(string, T)>, k: nat)
    requires k < |items|
    ensures var so := Logged(changes, items[..k]);
            Logged(changes, items[..k + 1]) ==
            so + [Change(|so| + 1, items[k].0, Lookup(Replay(map[], so), items[k].0), items[k].1)]
  {
    assert items[..k + 1][..k] == items[..k];
  }

  lemma LogGrows<T>(changes: seq<Change<T>>, key: string, value: T)
    requires IsLog(changes)
    ensures var more := changes + [Change(|changes| + 1, key, Lookup(Replay(map[], changes), key), value)];
            IsLog(more) && Replay(map[], more) == Replay(map[], changes)[key := value]
  {
    var more := changes + [Change(|changes| + 1, key, Lookup(Replay(map[], changes), key), value)];
    assert more[..|changes|] == changes;
  }

  lemma {:induction false} LoggedIsLog<T>(changes: seq<Change<T>>, items: seq<(string, T)>)
    requires IsLog(changes)
    ensures IsLog(Logged(changes, items)) && changes <= Logged(changes, items)
    ensures |Logged(changes, items)| == |changes| + |items|
  {
    if items != [] {
      var (key, value) := items[|items| - 1];
      LoggedIsLog(changes, items[..|items| - 1]);
      LogGrows(Logged(changes, items[..|items| - 1]), key, value);
    }
  }

  lemma {:induction false} HistoryIsLog<T>(calls: seq<Call<T>>)
    ensures IsLog(History(calls))
  {
    if calls != [] {
      HistoryIsLog(calls[..|calls| - 1]);
      LoggedIsLog(History(calls[..|calls| - 1]), ItemsOf(calls[|calls| - 1]));
    }
  }

  lemma {:induction false} HistoryGrows<T>(calls: seq<Call<T>>, more: seq<Call<T>>)
    ensures History(calls) <= History(calls + more)
    decreases |more|
  {
    if more == [] {
      assert calls + more == calls;
    } else {
      var so, last := calls + more[..|more| - 1], more[|more| - 1];
      HistoryGrows(calls, more[..|more| - 1]);
      assert (calls + more)[..|calls + more| - 1] == so;
      HistoryIsLog(so);
      LoggedIsLog(History(so), ItemsOf(last));
    }
  }

  lemma {:induction false} NumbersAreContiguous<T>(changes: seq<Change<T>>, k: nat)
    requires IsLog(changes) && k < |changes|
    ensures changes[k].number == k + 1
  {
    if k < |changes| - 1 {
      NumbersAreContiguous(changes[..|changes| - 1], k);
    }
  }

  lemma {:induction false} NewerIsRest<T>(changes: seq<Change<T>>, sequence: nat)
    requires IsLog(changes)
    ensures Newer(changes, sequence) == if sequence <= |changes| then changes[sequence..] else []
  {
    if changes != [] {
      var so := changes[..|changes| - 1];
      NewerIsRest(so, sequence);
      if sequence < |changes| {
        assert changes[sequence..] == so[sequence..] + [changes[|changes| - 1]];
      } else if sequence == |changes| {
        assert changes[sequence..] == [];
      }
    }
  }

  lemma {:induction false} ReplayConcat<T>(values: map<string, T>, a: seq<Change<T>>, b: seq<Change<T>>)
    ensures Replay(values, a + b) == Replay(Replay(values, a), b)
    decreases |b|
  {
    if b == [] {
      assert a + b == a;
    } else {
      ReplayConcat(values, a, b[..|b| - 1]);
      assert (a + b)[..|a + b| - 1] == a + b[..|b| - 1];
    }
  }

  lemma RestReplays<T>(earlier: seq<Change<T>>, later: seq<Change<T>>)
    requires earlier <= later
    ensures Replay(Replay(map[], earlier), later[|earlier|..]) == Replay(map[], later)
  {
    ReplayConcat(map[], earlier, later[|earlier|..]);
    assert earlier + later[|earlier|..] == later;
  }

  /** For any history: the changes since a snapshot, applied to it in order, give the current values; and
    * they are numbered contiguously from the snapshot on. */
  lemma SnapshotAndChangesGiveTheValues<T>(before: seq<Call<T>>, after: seq<Call<T>>)
    ensures var earlier, later := History(before), History(before + after);
            var newer := Newer(later, |earlier|);
            && Replay(Replay(map[], earlier), newer) == Replay(map[], later)
            && forall k | 0 <= k < |newer| :: newer[k].number == |earlier| + k + 1
  {
    var earlier, later := History(before), History(before + after);
    HistoryGrows(before, after);
    HistoryIsLog(before + after);
    NewerIsRest(later, |earlier|);
    RestReplays(earlier, later);
    var newer := Newer(later, |earlier|);
    forall k | 0 <= k < |newer| ensures newer[k].number == |earlier| + k + 1 {
      NumbersAreContiguous(later, |earlier| + k);
    }
  }
}
