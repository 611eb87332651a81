// The migration runner: a check-then-apply loop over sorted files, run by services that may crash
// at any point, restart, and overlap.

module Migrations {
  import opened Common
  import opened Sorting

  // ---------- Any number of runners as a transition system ----------

  // Checking(i): about to look up file i; Applying(i): about to commit its transaction;
  // Orphaned(i): the runner saw an error, its commit is still under way.
  datatype Runner = Checking(i: nat) | Applying(i: nat) | Orphaned(i: nat) | Completed | Aborted

  // applied: the rows of schema_migrations, in the order in which their transactions committed,
  // each together with the effects of its file.
  datatype State = State(applied: seq<string>, runners: map<nat, Runner>)

  datatype Outcome = Ok | Err | Lost

  datatype Action = Start(p: nat) | Check(p: nat, outcome: Outcome) | Commit(p: nat, outcome: Outcome) | Crash(p: nat)

  predicate Enabled(files: seq<string>, s: State, a: Action) {
    match a
    case Start(p) => p !in s.runners
    case Check(p, _) => p in s.runners && s.runners[p].Checking? && s.runners[p].i <= |files|
    case Commit(p, _) =>
      p in s.runners && (s.runners[p].Applying? || s.runners[p].Orphaned?) && s.runners[p].i < |files|
    case Crash(p) => p in s.runners
  }

  function Apply(files: seq<string>, s: State, a: Action): State
    requires Enabled(files, s, a)
  {
    match a
    case Start(p) => s.(runners := s.runners[p := Checking(0)])
    case Check(p, outcome) =>
      var i := s.runners[p].i;
      var next := if i == |files| then Completed
                  else if outcome != Ok then Aborted
                  else if files[i] in s.applied then Checking(i + 1)
                  else Applying(i);
      s.(runners := s.runners[p := next])
    case Commit(p, outcome) =>
      var i := s.runners[p].i;
      (match outcome
       case Err => s.(runners := s.runners[p := Aborted])
       case Lost => s.(runners := s.runners[p := Orphaned(i)])
       case Ok =>
         // The primary key refuses a version that somebody else has recorded since.
         if files[i] in s.applied then s.(runners := s.runners[p := Aborted])
         else State(s.applied + [files[i]],
                    s.runners[p := if s.runners[p].Orphaned? then Aborted else Checking(i + 1)]))
    case Crash(p) => s.(runners := s.runners - {p})
  }

  predicate Legal(files: seq<string>, s: State, run: seq<Action>)
    decreases |run|
  {
    run == [] || (Enabled(files, s, run[0]) && Legal(files, Apply(files, s, run[0]), run[1..]))
  }

  function Final(files: seq<string>, s: State, run: seq<Action>): State
    requires Legal(files, s, run)
    decreases |run|
  {
    if run == [] then s else Final(files, Apply(files, s, run[0]), run[1..])
  }

  predicate Prefix(applied: seq<string>, files: seq<string>) {
    applied <= files
  }

  // A runner has made sure of all files before the one it is at.
  predicate RunnerOK(files: seq<string>, applied: seq<string>, r: Runner) {
    match r
    case Checking(i) => i <= |applied|
    case Applying(i) => i <= |applied|
    case Orphaned(i) => i <= |applied|
    case Completed => applied == files
    case Aborted => true
  }

  predicate Inv(files: seq<string>, s: State) {
    Prefix(s.applied, files) && forall p :: p in s.runners ==> RunnerOK(files, s.applied, s.runners[p])
  }

  lemma AppliedUpTo(files: seq<string>, applied: seq<string>, i: nat)
    requires StrictlySorted(files) && Prefix(applied, files) && i < |files|
    ensures files[i] in applied <==> i < |applied|
  {
    if i < |applied| {
      assert applied[i] == files[i];
    }
    forall j | 0 <= j < |applied| && j != i ensures applied[j] != files[i] {
      assert applied[j] == files[j];
      LessIrreflexive(files[i]);
      assert if j < i then Less(files[j], files[i]) else Less(files[i], files[j]);
    }
  }

  lemma StepKeepsInv(files: seq<string>, s: State, a: Action)
    requires StrictlySorted(files) && Inv(files, s) && Enabled(files, s, a)
    ensures Inv(files, Apply(files, s, a)) && s.applied <= Apply(files, s, a).applied
  {
    if (a.Check? || a.Commit?) && s.runners[a.p].i < |files| {
      AppliedUpTo(files, s.applied, s.runners[a.p].i);
    }
  }

  // Whatever crashes, restarts and overlaps there were: the committed versions are a prefix of the
  // sorted files, each of them once, none is ever lost, and a runner that completes leaves exactly
  // what one uninterrupted run leaves: all of them, in order.
  lemma {:induction false} MigrationsAreSafe(files: seq<string>, s: State, run: seq<Action>)
    requires StrictlySorted(files) && Inv(files, s) && Legal(files, s, run)
    ensures var f := Final(files, s, run);
            && Inv(files, f)
            && s.applied <= f.applied <= files
            && (forall i, j :: 0 <= i < j < |f.applied| ==> f.applied[i] != f.applied[j])
            && InByteOrder(f.applied)
            && (forall p :: p in f.runners && f.runners[p] == Completed ==> f.applied == files)
    decreases |run|
  {
    if run != [] {
      StepKeepsInv(files, s, run[0]);
      MigrationsAreSafe(files, Apply(files, s, run[0]), run[1..]);
    } else {
      assert StrictlySorted(s.applied);
      SortedIffInByteOrder(s.applied);
      forall i, j | 0 <= i < j < |s.applied| ensures s.applied[i] != s.applied[j] {
        assert Less(files[i], files[j]);
        LessIrreflexive(files[i]);
      }
    }
  }

  lemma FirstThen(files: seq<string>, s: State, a: Action, run: seq<Action>)
    requires Enabled(files, s, a) && Legal(files, Apply(files, s, a), run)
    ensures Legal(files, s, [a] + run) && Final(files, s, [a] + run) == Final(files, Apply(files, s, a), run)
  {
    assert ([a] + run)[1..] == run;
  }

  // A runner that is left alone completes: from every state that crashes and overlaps can lead to, and
  // wherever it is, it applies what is missing and ends with all files applied.
  lemma {:induction false} RunnerCompletes(files: seq<string>, s: State, p: nat) returns (run: seq<Action>)
    requires StrictlySorted(files) && Inv(files, s) && p in s.runners && s.runners[p].Checking? && s.runners[p].i <= |files|
    ensures Legal(files, s, run)
    ensures var f := Final(files, s, run); p in f.runners && f.runners[p] == Completed && f.applied == files
    decreases |files| - s.runners[p].i
  {
    var i := s.runners[p].i;
    StepKeepsInv(files, s, Check(p, Ok));
    var s1 := Apply(files, s, Check(p, Ok));
    if i == |files| {
      run := [];
    } else {
      AppliedUpTo(files, s.applied, i);
      if s1.runners[p].Applying? {
        StepKeepsInv(files, s1, Commit(p, Ok));
        run := RunnerCompletes(files, Apply(files, s1, Commit(p, Ok)), p);
        FirstThen(files, s1, Commit(p, Ok), run);
        run := [Commit(p, Ok)] + run;
      } else {
        run := RunnerCompletes(files, s1, p);
      }
    }
    FirstThen(files, s, Check(p, Ok), run);
    run := [Check(p, Ok)] + run;
  }

  // ---------- The runner ----------

  datatype DirEntry = DirEntry(name: string, isDir: bool)

  // strings.HasSuffix
  predicate HasSuffix(s: string, suffix: string) {
    |suffix| <= |s| && s[|s| - |suffix|..] == suffix
  }

  // A file whose name is something followed by ".sql".
  ghost predicate IsMigration(entry: DirEntry) {
    !entry.isDir && exists stem :: entry.name == stem + ".sql"
  }

  lemma SuffixMeansStem(entry: DirEntry)
    ensures IsMigration(entry) <==> !entry.isDir && HasSuffix(entry.name, ".sql")
  {
    if HasSuffix(entry.name, ".sql") {
      assert entry.name == entry.name[..|entry.name| - 4] + ".sql";
    }
    if IsMigration(entry) {
      var stem :| entry.name == stem + ".sql";
      assert entry.name[|stem|..] == ".sql";
    }
  }

  // The database and its runners; files are the sorted names that all runners have.
  class Database {
    const files: seq<string>
    var s: State

    predicate Valid()
      reads this
    {
      StrictlySorted(files) && Inv(files, s)
    }

    constructor (files: seq<string>)
      requires StrictlySorted(files)
      ensures Valid() && this.files == files && s == State([], map[])
    {
      this.files, s := files, State([], map[]);
    }

    method Take(a: Action)
      requires Valid() && Enabled(files, s, a)
      modifies this
      ensures Valid() && s == Apply(files, old(s), a) && old(s.applied) <= s.applied
    {
      StepKeepsInv(files, s, a);
      s := Apply(files, s, a);
    }

    // Other runners make any number of steps.
    method OthersMayRun(p: nat)
      requires Valid()
      modifies this
      ensures Valid() && old(s.applied) <= s.applied
      ensures p in s.runners <==> p in old(s.runners)
      ensures p in s.runners ==> s.runners[p] == old(s.runners[p])
    {
      var steps: nat := *;
      while steps > 0
        invariant Valid() && old(s.applied) <= s.applied
        invariant p in s.runners <==> p in old(s.runners)
        invariant p in s.runners ==> s.runners[p] == old(s.runners[p])
      {
        var a: Action := *;
        if a.p != p && Enabled(files, s, a) {
          Take(a);
        }
        steps := steps - 1;
      }
    }

    // SELECT EXISTS for file i.
    method Exists(p: nat, i: nat) returns (recorded: bool, err: bool)
      requires Valid() && i < |files| && p in s.runners && s.runners[p] == Checking(i)
      modifies this
      ensures Valid() && old(s.applied) <= s.applied && p in s.runners
      ensures s.runners[p] == if err then Aborted else if recorded then Checking(i + 1) else Applying(i)
    {
      OthersMayRun(p);
      recorded, err := files[i] in s.applied, *;
      Take(Check(p, if err then Err else Ok));
    }

    // The transaction that applies file i and records it. With an error it may have committed or not.
    method ApplyAndRecord(p: nat, i: nat) returns (err: bool)
      requires Valid() && i < |files| && p in s.runners && s.runners[p] == Applying(i)
      modifies this
      ensures Valid() && old(s.applied) <= s.applied && p in s.runners
      ensures if err then s.runners[p] == Aborted || s.runners[p] == Orphaned(i) else s.runners[p] == Checking(i + 1)
      ensures !err ==> files[i] in s.applied
    {
      OthersMayRun(p);
      var outcome: Outcome := *;
      err := outcome != Ok || files[i] in s.applied;
      Take(Commit(p, outcome));
    }
  }

  // Success means that all migrations are applied, in order, whatever was applied before and
  // whoever else was at it; failure loses nothing.
  method Run(db: Database, p: nat, entries: seq<DirEntry>) returns (err: bool)
    requires db.Valid() && p !in db.s.runners
    requires forall n :: n in db.files <==> exists i :: 0 <= i < |entries| && entries[i].name == n && IsMigration(entries[i])
    modifies db
    ensures db.Valid() && old(db.s.applied) <= db.s.applied <= db.files
    ensures !err <==> p in db.s.runners && db.s.runners[p] == Completed
    ensures !err ==> db.s.applied == db.files
    ensures InByteOrder(db.s.applied)
  {
    SortedIffInByteOrder(db.files);
    // CREATE TABLE or ReadDir fails.
    if * {
      return true;
    }
    var names := MigrationNames(entries);
    var sorted := SortedKeys(names);
    SortedListingIsUnique(sorted, db.files);

    db.Take(Start(p));
    var i := 0;
    while i < |sorted|
      invariant db.Valid() && old(db.s.applied) <= db.s.applied
      invariant 0 <= i <= |sorted| && p in db.s.runners && db.s.runners[p] == Checking(i)
    {
      var recorded, failed := db.Exists(p, i);
      if failed {
        return true;
      }
      if !recorded {
        failed := db.ApplyAndRecord(p, i);
        if failed {
          return true;
        }
      }
      i := i + 1;
    }
    db.Take(Check(p, Ok));
    return false;
  }

  method MigrationNames(entries: seq<DirEntry>) returns (names: set<string>)
    ensures forall n :: n in names <==> exists i :: 0 <= i < |entries| && entries[i].name == n && IsMigration(entries[i])
  {
    names := {};
    var k := 0;
    while k < |entries|
      invariant 0 <= k <= |entries|
      invariant forall n :: n in names <==> exists i :: 0 <= i < k && entries[i].name == n && IsMigration(entries[i])
    {
      SuffixMeansStem(entries[k]);
      if !entries[k].isDir && HasSuffix(entries[k].name, ".sql") {
        names := names + {entries[k].name};
      }
      k := k + 1;
    }
  }
}
