/** Schema migration: one transaction per embedded script, stopping at the first failure and
    resuming at the next start. */
module Migrations {
  import opened Wrappers

  datatype Migration = Migration(version: string, name: string, sql: string)

  /** Where a script's transaction fails, if it does. */
  datatype Fault = Clean | ExecFails | InsertFails | CommitFails

  /** What is committed: the version rows and the scripts that took effect, in order. */
  datatype Db = Db(versions: seq<string>, effects: seq<string>)

  predicate DistinctVersions(ms: seq<Migration>) {
    forall i, j :: 0 <= i < j < |ms| ==> ms[i].version != ms[j].version
  }

  /** The scripts that a call still has to run, in order. */
  function Pending(ms: seq<Migration>, applied: seq<string>): seq<Migration> {
    if ms == [] then []
    else
      Pending(ms[..|ms| - 1], applied) +
      if ms[|ms| - 1].version in applied then [] else [ms[|ms| - 1]]
  }

  function Versions(ms: seq<Migration>): seq<string> {
    seq(|ms|, i requires 0 <= i < |ms| => ms[i].version)
  }

  function Scripts(ms: seq<Migration>): seq<string> {
    seq(|ms|, i requires 0 <= i < |ms| => ms[i].sql)
  }

  /** The database after the given scripts have been committed on top of it. */
  function Commit(db: Db, ms: seq<Migration>): Db {
    Db(db.versions + Versions(ms), db.effects + Scripts(ms))
  }

  lemma CommitMore(db: Db, ms: seq<Migration>, m: Migration)
    ensures Commit(db, ms + [m]) == Db(Commit(db, ms).versions + [m.version], Commit(db, ms).effects + [m.sql])
  {
    assert Versions(ms + [m]) == Versions(ms) + [m.version];
    assert Scripts(ms + [m]) == Scripts(ms) + [m.sql];
  }

  lemma CommitNothing(db: Db)
    ensures Commit(db, []) == db
  {
    assert Versions([]) == [] && Scripts([]) == [];
  }

  lemma CommitCommit(db: Db, a: seq<Migration>, b: seq<Migration>)
    ensures Commit(Commit(db, a), b) == Commit(db, a + b)
  {
    assert Versions(a + b) == Versions(a) + Versions(b) && Scripts(a + b) == Scripts(a) + Scripts(b);
  }

  datatype Outcome = Done(count: nat) | Failed

  class SchemaMigrator {
    const migrations: seq<Migration>
    var db: Db

    /** Opens the database; creating the version table if it is missing changes no row. */
    constructor (migrations: seq<Migration>, db: Db)
      ensures this.migrations == migrations && this.db == db
    {
      this.migrations, this.db := migrations, db;
    }

    /** Runs the pending scripts. The fault of each script's transaction is given; inserting
        a version that is already recorded fails by itself, as it violates the primary key. */
    method Migrate(fault: nat -> Fault) returns (outcome: Outcome)
      modifies this
      ensures outcome == MigrateOutcome(migrations, old(db), fault).0
      ensures db == MigrateOutcome(migrations, old(db), fault).1
    {
      var applied := db.versions;
      var count := 0;
      for i := 0 to |migrations|
        invariant applied == old(db).versions
        invariant Steps(migrations, old(db), fault, i) == (Done(count), db)
      {
        var m := migrations[i];
        if m.version !in applied {
          var saved := db;
          db := db.(effects := db.effects + [m.sql]);
          if fault(i) == ExecFails {
            db := saved;
            StuckAfter(migrations, old(db), fault, i + 1, |migrations|);
            return Failed;
          }
          if fault(i) == InsertFails || m.version in db.versions {
            db := saved;
            StuckAfter(migrations, old(db), fault, i + 1, |migrations|);
            return Failed;
          }
          db := db.(versions := db.versions + [m.version]);
          if fault(i) == CommitFails {
            db := saved;
            StuckAfter(migrations, old(db), fault, i + 1, |migrations|);
            return Failed;
          }
          count := count + 1;
        }
      }
      return Done(count);
    }
  }

  /** The first n rounds of the loop; a failure is final. */
  function Steps(ms: seq<Migration>, db: Db, fault: nat -> Fault, n: nat): (Outcome, Db)
    requires n <= |ms|
  {
    if n == 0 then (Done(0), db)
    else
      var before := Steps(ms, db, fault, n - 1);
      var m := ms[n - 1];
      if before.0.Failed? || m.version in db.versions then before
      else if fault(n - 1) != Clean || m.version in before.1.versions then (Failed, before.1)
      else (Done(before.0.count + 1), Db(before.1.versions + [m.version], before.1.effects + [m.sql]))
  }

  function MigrateOutcome(ms: seq<Migration>, db: Db, fault: nat -> Fault): (Outcome, Db) {
    Steps(ms, db, fault, |ms|)
  }

  lemma {:induction false} StuckAfter(ms: seq<Migration>, db: Db, fault: nat -> Fault, i: nat, n: nat)
    requires i <= n <= |ms| && Steps(ms, db, fault, i).0.Failed?
    ensures Steps(ms, db, fault, n) == Steps(ms, db, fault, i)
  {
    if i < n {
      StuckAfter(ms, db, fault, i, n - 1);
    }
  }

  // ---------------------------------------------------------------- one call

  lemma {:induction false} PendingMember(ms: seq<Migration>, applied: seq<string>)
    ensures forall m :: m in Pending(ms, applied) <==> m in ms && m.version !in applied
    ensures |Pending(ms, applied)| <= |ms|
  {
    if ms != [] {
      var n := |ms| - 1;
      PendingMember(ms[..n], applied);
      assert forall m :: m in ms <==> m in ms[..n] || m == ms[n] by {
        assert ms == ms[..n] + [ms[n]];
      }
    }
  }

  lemma {:induction false} PendingDistinct(ms: seq<Migration>, applied: seq<string>)
    requires DistinctVersions(ms)
    ensures DistinctVersions(Pending(ms, applied))
  {
    if ms != [] {
      var n := |ms| - 1;
      PendingDistinct(ms[..n], applied);
      PendingMember(ms[..n], applied);
      var before := Pending(ms[..n], applied);
      forall i | 0 <= i < |before|
        ensures before[i].version != ms[n].version
      {
        assert before[i] in ms[..n];
      }
    }
  }

  /** No transaction of a pending script among the first n fails. */
  predicate PendingSucceed(ms: seq<Migration>, db: Db, fault: nat -> Fault, n: nat)
    requires n <= |ms|
  {
    forall i :: 0 <= i < n && ms[i].version !in db.versions ==> fault(i) == Clean
  }

  /** The first n rounds commit a prefix of what is pending among the first n scripts, and
      all of it unless they fail. */
  lemma {:induction false} StepsCommit(ms: seq<Migration>, db: Db, fault: nat -> Fault, n: nat) returns (k: nat)
    requires DistinctVersions(ms) && n <= |ms|
    ensures k <= |Pending(ms[..n], db.versions)|
    ensures Steps(ms, db, fault, n).1 == Commit(db, Pending(ms[..n], db.versions)[..k])
    ensures Steps(ms, db, fault, n).0 == Failed || Steps(ms, db, fault, n).0 == Done(k)
    ensures Steps(ms, db, fault, n).0.Done? <==> k == |Pending(ms[..n], db.versions)|
    ensures Steps(ms, db, fault, n).0.Done? <==> PendingSucceed(ms, db, fault, n)
  {
    if n == 0 {
      k := 0;
      assert Commit(db, []) == db;
    } else {
      k := StepsCommit(ms, db, fault, n - 1);
      var before, m := Pending(ms[..n - 1], db.versions), ms[n - 1];
      var now := Pending(ms[..n], db.versions);
      assert ms[..n][..n - 1] == ms[..n - 1];
      assert now[..k] == before[..k];
      if Steps(ms, db, fault, n - 1).0.Done? && m.version !in db.versions {
        NotYetRecorded(ms, db, n - 1, before);
        if fault(n - 1) == Clean {
          assert before[..k] == before && now[..k + 1] == before + [m];
          CommitMore(db, before, m);
          k := k + 1;
        }
      }
    }
  }

  lemma NotYetRecorded(ms: seq<Migration>, db: Db, n: nat, pending: seq<Migration>)
    requires DistinctVersions(ms) && n < |ms| && pending == Pending(ms[..n], db.versions)
    requires ms[n].version !in db.versions
    ensures ms[n].version !in Commit(db, pending).versions
  {
    PendingMember(ms[..n], db.versions);
    forall i | 0 <= i < |pending|
      ensures pending[i].version != ms[n].version
    {
      assert pending[i] in ms[..n];
    }
  }

  /** One call commits some prefix of the pending scripts, in order. It returns normally with
      their number exactly when it committed all of them, and that is exactly when none of
      their transactions fails. */
  lemma OneCall(ms: seq<Migration>, db: Db, fault: nat -> Fault) returns (k: nat)
    requires DistinctVersions(ms)
    ensures k <= |Pending(ms, db.versions)|
    ensures MigrateOutcome(ms, db, fault).1 == Commit(db, Pending(ms, db.versions)[..k])
    ensures MigrateOutcome(ms, db, fault).0 == Failed || MigrateOutcome(ms, db, fault).0 == Done(k)
    ensures MigrateOutcome(ms, db, fault).0.Done? <==> k == |Pending(ms, db.versions)|
    ensures MigrateOutcome(ms, db, fault).0.Done? <==> PendingSucceed(ms, db, fault, |ms|)
  {
    assert ms[..|ms|] == ms;
    k := StepsCommit(ms, db, fault, |ms|);
  }

  // ---------------------------------------------------------------- many calls

  /** Successive calls of migrate, each with its own faults. */
  ghost predicate IsHistory(ms: seq<Migration>, dbs: seq<Db>, faults: seq<nat -> Fault>) {
    && |dbs| == |faults| + 1
    && forall i :: 0 <= i < |faults| ==> dbs[i + 1] == MigrateOutcome(ms, dbs[i], faults[i]).1
  }

  lemma {:induction false} PendingAfter(ms: seq<Migration>, applied: seq<string>, done: seq<string>)
    ensures Pending(ms, applied + done) == Pending(Pending(ms, applied), done)
  {
    if ms != [] {
      PendingAfter(ms[..|ms| - 1], applied, done);
      var p := Pending(ms, applied);
      if ms[|ms| - 1].version !in applied {
        assert p[..|p| - 1] == Pending(ms[..|ms| - 1], applied);
      } else {
        assert p == Pending(ms[..|ms| - 1], applied);
      }
    }
  }

  lemma {:induction false} PendingDrops(ms: seq<Migration>, k: nat)
    requires DistinctVersions(ms) && k <= |ms|
    ensures Pending(ms, Versions(ms[..k])) == ms[k..]
  {
    if k < |ms| {
      var n := |ms| - 1;
      assert ms[..n][..k] == ms[..k];
      PendingDrops(ms[..n], k);
      assert ms[n].version !in Versions(ms[..k]);
      assert ms[..n][k..] + [ms[n]] == ms[k..];
    } else {
      assert ms[..k] == ms && forall i :: 0 <= i < |ms| ==> Versions(ms)[i] == ms[i].version;
      AllDone(ms, Versions(ms));
    }
  }

  lemma {:induction false} AllDone(ms: seq<Migration>, applied: seq<string>)
    requires forall m :: m in ms ==> m.version in applied
    ensures Pending(ms, applied) == []
  {
    if ms != [] {
      AllDone(ms[..|ms| - 1], applied);
    }
  }

  /** Exactly once across retries: whatever fails in whichever call, what has been committed
      is a prefix of the scripts that were pending at the start, each once and in order. */
  lemma {:induction false} PrefixAcrossRetries(ms: seq<Migration>, dbs: seq<Db>, faults: seq<nat -> Fault>, n: nat)
      returns (k: nat)
    requires DistinctVersions(ms) && IsHistory(ms, dbs, faults) && n < |dbs|
    ensures k <= |Pending(ms, dbs[0].versions)| && dbs[n] == Commit(dbs[0], Pending(ms, dbs[0].versions)[..k])
    ensures Pending(ms, dbs[n].versions) == Pending(ms, dbs[0].versions)[k..]
  {
    hide Pending, Commit, MigrateOutcome, DistinctVersions;
    var pending := Pending(ms, dbs[0].versions);
    if n == 0 {
      k := 0;
      CommitNothing(dbs[0]);
      assert Commit(dbs[0], []) == dbs[0];
    } else {
      var j := PrefixAcrossRetries(ms, dbs, faults, n - 1);
      var more := OneCall(ms, dbs[n - 1], faults[n - 1]);
      k := j + more;
      assert pending[..j] + pending[j..][..more] == pending[..k];
      CommitCommit(dbs[0], pending[..j], pending[j..][..more]);
      PendingCommit(ms, dbs[0], k);
    }
  }

  lemma PendingCommit(ms: seq<Migration>, db: Db, k: nat)
    requires DistinctVersions(ms) && k <= |Pending(ms, db.versions)|
    ensures Pending(ms, Commit(db, Pending(ms, db.versions)[..k]).versions) == Pending(ms, db.versions)[k..]
  {
    var pending := Pending(ms, db.versions);
    PendingDistinct(ms, db.versions);
    PendingAfter(ms, db.versions, Versions(pending[..k]));
    PendingDrops(pending, k);
  }

  /** Progress is never lost: a later database extends an earlier one. */
  lemma {:induction false} NeverUndone(ms: seq<Migration>, dbs: seq<Db>, faults: seq<nat -> Fault>, i: nat, j: nat)
    requires DistinctVersions(ms) && IsHistory(ms, dbs, faults) && i <= j < |dbs|
    ensures dbs[i].effects <= dbs[j].effects && dbs[i].versions <= dbs[j].versions
  {
    if i < j {
      NeverUndone(ms, dbs, faults, i, j - 1);
      var _ := OneCall(ms, dbs[j - 1], faults[j - 1]);
    }
  }

  /** The first normal return leaves every script applied; every later call then returns 0
      and changes nothing, whatever its faults. */
  lemma {:induction false} AfterSuccess(ms: seq<Migration>, dbs: seq<Db>, faults: seq<nat -> Fault>, i: nat, j: nat)
    requires DistinctVersions(ms) && IsHistory(ms, dbs, faults) && i < j < |dbs|
    requires MigrateOutcome(ms, dbs[i], faults[i]).0.Done?
    ensures dbs[j] == Commit(dbs[0], Pending(ms, dbs[0].versions))
    ensures j < |faults| ==> MigrateOutcome(ms, dbs[j], faults[j]) == (Done(0), dbs[j])
  {
    var pending := Pending(ms, dbs[0].versions);
    var k := PrefixAcrossRetries(ms, dbs, faults, i + 1);
    var before := PrefixAcrossRetries(ms, dbs, faults, i);
    var more := OneCall(ms, dbs[i], faults[i]);
    assert Pending(ms, dbs[i].versions)[..more] == Pending(ms, dbs[i].versions);
    if j > i + 1 {
      AfterSuccess(ms, dbs, faults, i, j - 1);
    } else {
      assert pending[..before] + pending[before..] == pending;
      CommitCommit(dbs[0], pending[..before], pending[before..]);
    }
    PendingCommit(ms, dbs[0], |pending|);
    assert pending[..|pending|] == pending;
    if j < |faults| {
      NothingPending(ms, dbs[j], faults[j], |ms|);
    }
  }

  lemma {:induction false} NothingPending(ms: seq<Migration>, db: Db, fault: nat -> Fault, n: nat)
    requires Pending(ms, db.versions) == [] && n <= |ms|
    ensures Steps(ms, db, fault, n) == (Done(0), db)
  {
    if n > 0 {
      NothingPending(ms, db, fault, n - 1);
      PendingMember(ms, db.versions);
    }
  }

  // ---------------------------------------------------------------- repeated versions

  predicate NoRepeats(versions: seq<string>) {
    forall i, j :: 0 <= i < j < |versions| ==> versions[i] != versions[j]
  }

  ghost predicate Consistent(ms: seq<Migration>, db: Db) {
    && |db.versions| == |db.effects| && NoRepeats(db.versions)
    && forall v :: v in db.versions ==> v in Versions(ms)
  }

  lemma {:induction false} StepsConsistent(ms: seq<Migration>, db: Db, fault: nat -> Fault, n: nat)
    requires n <= |ms| && Consistent(ms, db)
    ensures Consistent(ms, Steps(ms, db, fault, n).1)
  {
    if n > 0 {
      StepsConsistent(ms, db, fault, n - 1);
      assert Versions(ms)[n - 1] == ms[n - 1].version;
    }
  }

  lemma {:induction false} HistoryConsistent(ms: seq<Migration>, dbs: seq<Db>, faults: seq<nat -> Fault>, n: nat)
    requires IsHistory(ms, dbs, faults) && n < |dbs| && Consistent(ms, dbs[0])
    ensures Consistent(ms, dbs[n])
  {
    if n > 0 {
      HistoryConsistent(ms, dbs, faults, n - 1);
      StepsConsistent(ms, dbs[n - 1], faults[n - 1], |ms|);
    }
  }

  function Items(s: seq<string>): set<string> {
    set x | x in s
  }

  lemma {:induction false} ItemsSize(s: seq<string>)
    ensures |Items(s)| <= |s| && (|Items(s)| == |s| <==> NoRepeats(s))
  {
    if s != [] {
      var n := |s| - 1;
      ItemsSize(s[..n]);
      assert s == s[..n] + [s[n]];
      assert Items(s) == Items(s[..n]) + {s[n]};
      if s[n] in Items(s[..n]) {
        var i :| 0 <= i < n && s[i] == s[n];
        assert Items(s) == Items(s[..n]);
      }
    }
  }

  lemma {:induction false} SubsetSize(a: set<string>, b: set<string>)
    requires a <= b
    ensures |a| <= |b|
  {
    if a != {} {
      var x :| x in a;
      SubsetSize(a - {x}, b - {x});
    }
  }

  /** A history on a new database in which each script has taken effect once, in order. */
  ghost predicate AppliesAll(ms: seq<Migration>, dbs: seq<Db>, faults: seq<nat -> Fault>, n: nat) {
    IsHistory(ms, dbs, faults) && n < |dbs| && dbs[0] == Db([], []) && dbs[n].effects == Scripts(ms)
  }

  /** On a new database, some history of calls applies every script exactly once and in
      order if and only if no two scripts share a version: a script whose version was used
      before is first refused and then skipped as already applied. */
  lemma AppliedIffDistinct(ms: seq<Migration>)
    ensures (exists dbs, faults, n :: AppliesAll(ms, dbs, faults, n)) <==> DistinctVersions(ms)
  {
    if DistinctVersions(ms) {
      var clean: nat -> Fault := i => Clean;
      var dbs, faults := [Db([], []), MigrateOutcome(ms, Db([], []), clean).1], [clean];
      var k := OneCall(ms, Db([], []), clean);
      PendingDrops(ms, 0);
      assert Versions(ms[..0]) == [] && ms[0..] == ms && ms[..|ms|] == ms;
      assert AppliesAll(ms, dbs, faults, 1);
    }
    forall dbs: seq<Db>, faults, n: nat | AppliesAll(ms, dbs, faults, n)
      ensures DistinctVersions(ms)
    {
      HistoryConsistent(ms, dbs, faults, n);
      ItemsSize(dbs[n].versions);
      ItemsSize(Versions(ms));
      SubsetSize(Items(dbs[n].versions), Items(Versions(ms)));
      assert forall i :: 0 <= i < |ms| ==> Versions(ms)[i] == ms[i].version;
    }
  }
}
