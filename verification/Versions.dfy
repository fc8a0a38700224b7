/** What a table held over time, and what a query of it has seen. */
module Versions {

  /** A state of a table's rows and when it was stored. */
  datatype Version<T> = Version(at: nat, content: T)

  /** What a query read: which version, and when. */
  datatype Snapshot = Snapshot(version: nat, at: nat)

  ghost predicate Ordered<T>(log: seq<Version<T>>, now: nat) {
    && log != []
    && (forall v :: 0 <= v < |log| ==> log[v].at <= now)
    && (forall v, w :: 0 <= v < w < |log| ==> log[v].at <= log[w].at)
  }

  /** The snapshot is the version that was stored at the instant it was read. */
  ghost predicate InForce<T>(log: seq<Version<T>>, s: Snapshot, now: nat) {
    && s.version < |log| && s.at <= now
    && log[s.version].at <= s.at
    && (s.version + 1 < |log| ==> s.at <= log[s.version + 1].at)
  }

  function Stored<T>(log: seq<Version<T>>, now: nat, content: T): seq<Version<T>> {
    log + [Version(now, content)]
  }

  /** Storing a new version leaves every snapshot in force at its own instant. */
  lemma StoringKeeps<T>(log: seq<Version<T>>, s: Snapshot, now: nat, content: T)
    requires InForce(log, s, now)
    ensures InForce(Stored(log, now, content), s, now)
    ensures Stored(log, now, content)[s.version] == log[s.version]
  {
  }

  lemma StoringOrdered<T>(log: seq<Version<T>>, now: nat, content: T)
    requires Ordered(log, now)
    ensures Ordered(Stored(log, now, content), now)
  {
  }

  lemma TimeKeeps<T>(log: seq<Version<T>>, s: Snapshot, now: nat, later: nat)
    requires InForce(log, s, now) && now <= later
    ensures InForce(log, s, later)
  {
  }

  lemma ReadingIsInForce<T>(log: seq<Version<T>>, now: nat)
    requires Ordered(log, now)
    ensures InForce(log, Snapshot(|log| - 1, now), now)
  {
  }
}
