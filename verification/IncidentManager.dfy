/** The incident manager as it is written: a map of mutable records, changed in place inside one lock.
    Each method is one critical section and is proved to do to the table of record values exactly what
    the functions of `Incidents` say. */
module IncidentManager {
  import opened Basics
  import opened Incidents

  method CloneStrings(source: array<string>) returns (copy: array<string>)
    ensures fresh(copy) && copy[..] == source[..]
  {
    copy := new string[source.Length](i requires 0 <= i < source.Length reads source => source[i]);
  }

  class IncidentRecord {
    const id: string
    const firstDetectedAt: Time
    var attemptCount: nat
    var lastAttemptAt: Time
    var terminalOutcome: Outcome
    var terminalAt: Time
    var generation: int
    var inFlight: bool
    var logs: string
    var events: array<string>
    var evidenceCaptured: bool

    constructor (id: string, now: Time)
      ensures fresh(events)
      ensures View() == NewRecord(id, now)
    {
      this.id := id;
      firstDetectedAt := now;
      attemptCount := 0;
      lastAttemptAt := 0;
      terminalOutcome := Unset;
      terminalAt := 0;
      generation := 0;
      inFlight := false;
      logs := "";
      events := new string[0];
      evidenceCaptured := false;
    }

    /** The second half of beginAttempt, on the incident's record. */
    method Take(generation: int, now: Time) returns (admission: Admission)
      modifies this
      ensures events == old(events)
      ensures (View(), admission) == Incidents.Take(old(View()), generation, now)
    {
      this.generation := generation;
      if inFlight {
        admission := Skip;
      } else if attemptCount >= MAX_ATTEMPTS {
        terminalOutcome := Exhausted;
        terminalAt := now;
        admission := BudgetSpent;
      } else if attemptCount > 0 && now - lastAttemptAt < AttemptBackoff(attemptCount) {
        admission := Skip;
      } else {
        inFlight := true;
        admission := Proceed;
      }
    }

    ghost function View(): Record
      reads this, events
    {
      Record(id, attemptCount, firstDetectedAt, lastAttemptAt, terminalOutcome, terminalAt, generation, inFlight,
             if evidenceCaptured then Some(Bundle(logs, events[..])) else None)
    }
  }

  class IncidentTable {
    var incidents: map<string, IncidentRecord>

    /** The objects the table is made of: itself, its records and their evidence arrays. */
    ghost var Repr: set<object>

    ghost predicate Valid()
      reads this, Repr
    {
      && this in Repr
      && (forall k <- incidents :: incidents[k] in Repr && incidents[k].events in Repr)
      && (forall j <- incidents, k <- incidents | incidents[j] == incidents[k] :: j == k)
    }

    ghost function Contents(): Table
      requires Valid()
      reads this, Repr
    {
      map k <- incidents :: incidents[k].View()
    }

    constructor ()
      ensures Valid() && Contents() == map[] && fresh(Repr)
    {
      incidents := map[];
      Repr := {this};
    }

    /** Rewriting one key's record rewrites one row of the table. */
    twostate lemma OneRowChanged(key: string, new record: IncidentRecord)
      requires old(Valid()) && Valid()
      requires incidents == old(incidents)[key := record]
      requires forall k <- old(incidents) | k != key ::
          unchanged(old(incidents[k])) && unchanged(old(incidents[k].events))
      ensures Contents() == old(Contents())[key := record.View()]
    {
    }

    /** The record of `key`, unless it is a finished one that has retired: then it is dropped. */
    method DropRetired(key: string, generation: int, now: Time) returns (found: IncidentRecord?, quiet: bool)
      requires Valid()
      modifies this
      ensures Valid() && Repr == old(Repr)
      ensures var current := old(Lookup(Contents(), key));
              && (found == null <==> current.None? || Retired(current.value, generation, now))
              && quiet == (found != null && current.value.terminalOutcome != Unset)
      ensures found != null ==> incidents == old(incidents) && key in incidents && incidents[key] == found
      ensures found == null ==> incidents == old(incidents) - {key}
    {
      found := if key in incidents then incidents[key] else null;
      if found != null && found.terminalOutcome != Unset && generation != found.generation {
        incidents := incidents - {key};
        found := null;
      }
      quiet := false;
      if found != null && found.terminalOutcome != Unset {
        if found.terminalOutcome == Exhausted || now - found.terminalAt < COOLDOWN {
          quiet := true;
        } else {
          incidents := incidents - {key};
          found := null;
        }
      }
    }

    /** The first half of beginAttempt: drop a finished incident that has retired, open a new one if none is left. */
    method CurrentRecord(key: string, generation: int, now: Time, freshId: string)
      returns (record: IncidentRecord, quiet: bool)
      requires Valid()
      modifies this
      ensures Valid() && incidents == old(incidents)[key := record] && fresh(Repr - old(Repr))
      ensures forall k <- old(incidents) | k != key :: old(incidents[k]) != record
      ensures var current := old(Lookup(Contents(), key));
              && quiet == (current.Some? && current.value.terminalOutcome != Unset
                  && !Retired(current.value, generation, now))
              && record.View() == Current(current, generation, now, freshId)
    {
      var found;
      found, quiet := DropRetired(key, generation, now);
      if found == null {
        record := new IncidentRecord(freshId, now);
        incidents := incidents[key := record];
        Repr := Repr + {record, record.events};
      } else {
        record := found;
      }
    }

    method BeginAttempt(key: string, generation: int, now: Time, freshId: string)
      returns (record: IncidentRecord, admission: Admission)
      requires Valid()
      modifies Repr
      ensures Valid() && fresh(Repr - old(Repr))
      ensures incidents == old(incidents)[key := record]
      ensures (record.View(), admission) == Admit(old(Lookup(Contents(), key)), generation, now, freshId)
      ensures Contents() == old(Contents())[key := record.View()]
    {
      var quiet;
      record, quiet := CurrentRecord(key, generation, now, freshId);
      assert incidents[key] == record && record in Repr;
      if quiet {
        admission := Skip;
      } else {
        admission := record.Take(generation, now);
      }
      OneRowChanged(key, record);
    }

    method RecordAttempt(key: string) returns (n: nat)
      requires Valid()
      modifies Repr
      ensures Valid() && Repr == old(Repr)
      ensures key !in old(Contents()) ==> n == 0 && Contents() == old(Contents())
      ensures key in old(Contents()) ==> n == old(Contents())[key].attemptCount + 1
                                         && Contents() == old(Contents())[key := Counted(old(Contents())[key])]
    {
      if key !in incidents {
        return 0;
      }
      var record := incidents[key];
      record.attemptCount := record.attemptCount + 1;
      OneRowChanged(key, record);
      return record.attemptCount;
    }

    method EndAttempt(key: string, outcome: Outcome, now: Time)
      requires Valid()
      modifies Repr
      ensures Valid() && Repr == old(Repr)
      ensures key !in old(Contents()) ==> Contents() == old(Contents())
      ensures key in old(Contents()) ==> Contents() == old(Contents())[key :=
          Released(old(Contents())[key], outcome, now)]
    {
      if key !in incidents {
        return;
      }
      var record := incidents[key];
      record.inFlight := false;
      if LeavesOpen(outcome) {
        record.lastAttemptAt := now;
      } else {
        record.terminalOutcome := outcome;
        record.terminalAt := now;
      }
      assert record.View() == Released(old(record.View()), outcome, now);
      OneRowChanged(key, record);
    }

    /** The caller gets its own copy of the frozen events: nothing it later writes there reaches the record. */
    method IncidentEvidence(key: string) returns (logs: string, events: array<string>, captured: bool)
      requires Valid()
      ensures fresh(events)
      ensures var frozen := Perform(Contents(), key, ReadEvidence).1.bundle;
              captured == frozen.Some? && Bundle(logs, events[..]) == frozen.GetOr(Bundle("", []))
    {
      if key !in incidents || !incidents[key].evidenceCaptured {
        logs, captured := "", false;
        events := new string[0];
        return;
      }
      logs, captured := incidents[key].logs, true;
      events := CloneStrings(incidents[key].events);
    }

    /** Stores a copy: the caller's array stays outside the table. */
    method FreezeEvidence(key: string, logs: string, events: array<string>)
      requires Valid()
      modifies Repr
      ensures Valid() && fresh(Repr - old(Repr))
      ensures key !in old(Contents()) ==> Contents() == old(Contents())
      ensures key in old(Contents()) ==> Contents() == old(Contents())[key :=
          Frozen(old(Contents())[key], Bundle(logs, old(events[..])))]
    {
      if key !in incidents {
        return;
      }
      var record := incidents[key];
      record.logs := logs;
      var copy := CloneStrings(events);
      record.events := copy;
      Repr := Repr + {copy};
      record.evidenceCaptured := true;
      OneRowChanged(key, record);
    }

    method ClosedIncident(key: string) returns (closed: Option<(string, Outcome, nat)>)
      requires Valid()
      ensures Closure(closed) == Perform(Contents(), key, ReadClosure).1
    {
      if key !in incidents || incidents[key].terminalOutcome == Unset {
        return None;
      }
      var record := incidents[key];
      return Some((record.id, record.terminalOutcome, record.attemptCount));
    }
  }
}
