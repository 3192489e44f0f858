/** The runtime database, the lock manager and the packs as their classes keep them. */
module RunStores {
  import opened Wrappers
  import opened PackJournal
  import opened RunModel
  import opened RunLog
  import opened RunDispatch
  import opened RunReports

  /** A record that every store, the lock manager and the hardware write to, so that contracts can speak of
    * their order. */
  class Tape {
    ghost var events: seq<Event>

    constructor ()
      ensures events == []
    {
      events := [];
    }
  }

  class LockManager {
    const tape: Tape
    var held: set<string>

    constructor (tape: Tape)
      ensures this.tape == tape && held == {}
    {
      this.tape, held := tape, {};
    }

    /** All of the keys, or none. */
    method Acquire(keys: seq<string>) returns (ok: bool)
      modifies this, tape
      ensures ok <==> forall k | k in keys :: k !in old(held)
      ensures held == if ok then old(held) + set k | k in keys else old(held)
      ensures tape.events == if ok then old(tape.events) + [LocksTaken(keys)] else old(tape.events)
    {
      for n := 0 to |keys|
        invariant forall m | 0 <= m < n :: keys[m] !in held
      {
        if keys[n] in held {
          return false;
        }
      }
      held := held + set k | k in keys;
      tape.events := tape.events + [LocksTaken(keys)];
      return true;
    }

    method Release(keys: seq<string>)
      modifies this, tape
      ensures held == old(held) - set k | k in keys
      ensures tape.events == old(tape.events) + [LocksFreed(keys)]
    {
      for n := 0 to |keys|
        invariant held == old(held) - (set k | k in keys[..n]) && tape.events == old(tape.events)
      {
        assert keys[..n + 1] == keys[..n] + [keys[n]];
        held := held - {keys[n]};
      }
      assert keys[..|keys|] == keys;
      tape.events := tape.events + [LocksFreed(keys)];
    }
  }

  /** The plans, action_runs, approvals and exec_journal tables, of the first only how many rows it has.
    * Each mutating method is one committed statement. */
  class RuntimeDb {
    const tape: Tape
    var plans: nat
    var runs: seq<Run>
    var grants: seq<Grant>
    var entries: map<Key, Entry>

    constructor (tape: Tape)
      ensures this.tape == tape && plans == 0 && runs == [] && grants == [] && entries == map[]
    {
      this.tape, plans, runs, grants, entries := tape, 0, [], [], map[];
    }

    method StorePlan() returns (id: nat)
      modifies this`plans, tape
      ensures id == old(plans) && plans == old(plans) + 1
      ensures tape.events == old(tape.events) + [PlanStored]
    {
      id := plans;
      plans := plans + 1;
      tape.events := tape.events + [PlanStored];
    }

    method CreateActionRun(r: Run) returns (id: RunId)
      modifies this`runs, tape
      ensures id == |old(runs)| && runs == old(runs) + [r]
      ensures tape.events == old(tape.events) + [RunCreated(id, r)]
    {
      id := |runs|;
      runs := runs + [r];
      tape.events := tape.events + [RunCreated(id, r)];
    }

    /** One move along the transition table; any other is refused with an exception and writes nothing. */
    method TransitionActionRun(id: RunId, s: RunStatus) returns (error: Option<Error>)
      modifies this`runs, tape
      ensures error == TransitionError(old(runs), id, s)
      ensures runs == if error == None then WithStatus(old(runs), id, s) else old(runs)
      ensures tape.events == if error == None then old(tape.events) + [StatusWritten(id, s)] else old(tape.events)
    {
      if id >= |runs| {
        return Some(Elsewhere);
      }
      if s !in Allowed(runs[id].status) {
        return Some(IllegalTransition(runs[id].status, s));
      }
      runs := runs[id := runs[id].(status := s)];
      tape.events := tape.events + [StatusWritten(id, s)];
      return None;
    }

    /** The row refers to its run, so an approval of a run that is not there is refused with an exception. */
    method RecordApproval(g: Grant) returns (error: Option<Error>)
      modifies this`grants, tape
      ensures error == if g.run < |runs| then None else Some(Elsewhere)
      ensures grants == if error == None then old(grants) + [g] else old(grants)
      ensures tape.events == if error == None then old(tape.events) + [GrantWritten(g)] else old(tape.events)
    {
      if g.run >= |runs| {
        return Some(Elsewhere);
      }
      grants := grants + [g];
      tape.events := tape.events + [GrantWritten(g)];
      return None;
    }

    method HasValidApproval(id: RunId, a: Action, nowMs: int) returns (found: bool)
      ensures found <==> HasValidGrant(grants, id, a, nowMs)
    {
      for j := 0 to |grants|
        invariant forall m | 0 <= m < j :: !(Binds(grants[m], id, a) && grants[m].expiresMs >= nowMs)
      {
        if Binds(grants[j], id, a) && grants[j].expiresMs >= nowMs {
          return true;
        }
      }
      return false;
    }

    /** `_active_locks`, over `list_action_runs_by_status(DISPATCHED)`. */
    method ActiveLocks() returns (locked: set<string>)
      ensures locked == DurableLocks(runs)
    {
      locked := {};
      for i := 0 to |runs|
        invariant locked == DurableLocks(runs[..i])
      {
        assert runs[..i + 1][..i] == runs[..i];
        if runs[i].status == DISPATCHED {
          locked := locked + set k | k in runs[i].action.locks;
        }
      }
      assert runs[..|runs|] == runs;
    }

    method GetExecJournal(key: Key) returns (entry: Option<Entry>)
      ensures entry == if key in entries then Some(entries[key]) else None
    {
      entry := if key in entries then Some(entries[key]) else None;
    }

    /** `start_exec_journal`: inserts, or returns the entry there is. */
    method StartExecJournal(key: Key, run: RunId) returns (entry: Entry)
      modifies this`entries, tape
      ensures entry == if key in old(entries) then old(entries)[key] else Entry(run, IN_FLIGHT, map[])
      ensures entries == old(entries)[key := entry]
      ensures tape.events == if key in old(entries) then old(tape.events) else old(tape.events) + [JournalStarted(key, run)]
    {
      if key in entries {
        return entries[key];
      }
      entry := Entry(run, IN_FLIGHT, map[]);
      entries := entries[key := entry];
      tape.events := tape.events + [JournalStarted(key, run)];
    }

    /** `finish_exec_journal`: an UPDATE, so without effect when there is no such row. */
    method FinishExecJournal(key: Key, outcome: Realization)
      modifies this`entries, tape
      ensures entries == if key in old(entries) then old(entries)[key := Finished(old(entries)[key].run, outcome)] else old(entries)
      ensures tape.events == old(tape.events) + [JournalFinished(key, outcome)]
    {
      if key in entries {
        entries := entries[key := Finished(entries[key].run, outcome)];
      }
      tape.events := tape.events + [JournalFinished(key, outcome)];
    }
  }

  function TransitionError(runs: seq<Run>, id: RunId, s: RunStatus): Option<Error> {
    if id >= |runs| then Some(Elsewhere)
    else if s !in Allowed(runs[id].status) then Some(IllegalTransition(runs[id].status, s))
    else None
  }

  /** The packs, behind `BasePack.execute`, with a log of the hardware effects they started. */
  class Packs {
    const tape: Tape
    const db: RuntimeDb
    ghost var effects: multiset<Key>
    ghost var outcomes: map<RunId, Realization>

    constructor (tape: Tape, db: RuntimeDb)
      ensures this.tape == tape && this.db == db && effects == multiset{} && outcomes == map[]
    {
      this.tape, this.db, effects, outcomes := tape, db, multiset{}, map[];
    }

    ghost function Book(): Book reads this, db {
      PackJournal.Book(db.entries, effects)
    }

    ghost function Kept(): Journal reads this, db {
      Journal(Book(), outcomes)
    }

    /** `_realize`: the hardware effect; `given` is what it comes back with. */
    method Realize(key: Key, run: RunId, given: Realization) returns (outcome: Realization)
      modifies this, tape
      ensures outcome == given && effects == old(effects) + multiset{key} && outcomes == old(outcomes)[run := given]
      ensures tape.events == old(tape.events) + [EffectStarted(key), EffectEnded(key, given)]
    {
      effects, outcomes := effects + multiset{key}, outcomes[run := given];
      tape.events := tape.events + [EffectStarted(key), EffectEnded(key, given)];
      outcome := given;
    }

    /** `execute`: an answer from the journal, or the write-ahead entry, the effect, and its outcome. */
    method Execute(key: Key, run: RunId, given: Realization) returns (result: Result)
      requires db.tape == tape
      modifies this, db`entries, tape
      ensures var (book, answer) := PackJournal.Execute(old(Book()), Call(key, run, Completes(given)));
              Book() == book && Some(result) == answer
      ensures outcomes == if key in old(db.entries) then old(outcomes) else old(outcomes)[run := given]
      ensures tape.events == old(tape.events) +
              if key in old(db.entries) then []
              else [JournalStarted(key, run), EffectStarted(key), EffectEnded(key, given), JournalFinished(key, given)]
    {
      var existing := db.GetExecJournal(key);
      if existing.Some? {
        return Replay(existing.value);
      }
      ghost var before := db.entries;
      var _ := db.StartExecJournal(key, run);
      var outcome := Realize(key, run, given);
      db.FinishExecJournal(key, outcome);
      assert db.entries == before[key := Finished(run, given)];
      result := match outcome
        case Returns(detail) => Result(Success, detail)
        case Throws(kind, message) => Result(Failure, map["type" := kind, "message" := message]);
      assert given.Throws? ==> "type" in Finished(run, given).detail;
    }
  }
}
