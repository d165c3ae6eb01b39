/** `RunMigrations` (backend/pkg/database/init.go). */
module Migrations {
  import opened Wrappers
  import Sorting

  predicate IsSqlFile(name: string) {
    |name| >= 4 && name[|name| - 4..] == ".sql"
  }

  /** The directory entries named `*.sql`, in directory order. */
  function SqlNames(files: seq<string>): (names: seq<string>)
    ensures forall n :: n in names <==> n in files && IsSqlFile(n)
    ensures |names| <= |files|
  {
    if files == [] then []
    else
      var rest := SqlNames(files[1..]);
      assert forall n :: n in files <==> n == files[0] || n in files[1..];
      if IsSqlFile(files[0]) then [files[0]] + rest else rest
  }

  lemma {:induction false} SqlNamesAppend(files: seq<string>, name: string)
    ensures SqlNames(files + [name]) == SqlNames(files) + (if IsSqlFile(name) then [name] else [])
    decreases |files|
  {
    if files != [] {
      assert (files + [name])[0] == files[0];
      assert (files + [name])[1..] == files[1..] + [name];
      SqlNamesAppend(files[1..], name);
    } else {
      assert [name][1..] == [];
    }
  }

  /** The migrations to consider, after `sort.Strings`. */
  function Pending(files: seq<string>): (names: seq<string>)
    ensures forall n :: n in names <==> n in files && IsSqlFile(n)
    ensures multiset(names) == multiset(SqlNames(files))
    ensures Sorting.SortedBy(names, Sorting.StrLe)
  {
    var r := Sorting.SortStrings(SqlNames(files));
    assert forall n :: n in r <==> n in multiset(r);
    assert forall n :: n in SqlNames(files) <==> n in multiset(SqlNames(files));
    r
  }

  /** The steps of applying one file, each of which can fail. */
  datatype Step = ReadFile | Begin | Exec | Record | Commit

  /**
   * What the database does with one file: the status query fails, one
   * step of applying it fails, or nothing fails.
   */
  datatype Fault = NoFault | CheckFails(err: string) | StepFails(step: Step, err: string)

  function StepError(step: Step, file: string, err: string): string {
    match step
      case ReadFile => "failed to read migration file " + file + ": " + err
      case Begin => "failed to begin transaction: " + err
      case Exec => "failed to execute migration " + file + ": " + err
      case Record => "failed to record migration " + file + ": " + err
      case Commit => "failed to commit migration " + file + ": " + err
  }

  const CheckPrefix := "failed to check migration status: "

  /** The result of a run: the returned error, and the rows of the migrations table afterwards. */
  datatype RunResult = RunResult(err: Option<string>, applied: seq<string>)

  /**
   * The main loop over `pending`, starting from the recorded names
   * `applied`. A file either runs and is recorded in one transaction, or,
   * on any failure, is rolled back and ends the run with an error.
   */
  function ApplyAll(pending: seq<string>, applied: seq<string>, fault: string -> Fault): RunResult
    decreases |pending|
  {
    if pending == [] then RunResult(None, applied)
    else
      var file := pending[0];
      if fault(file).CheckFails? then RunResult(Some(CheckPrefix + fault(file).err), applied)
      else if file in applied then ApplyAll(pending[1..], applied, fault)
      else if fault(file).StepFails? then
        RunResult(Some(StepError(fault(file).step, file, fault(file).err)), applied)
      else ApplyAll(pending[1..], applied + [file], fault)
  }

  /** The whole of `RunMigrations` on a directory listing (or the error reading it). */
  function Run(dir: Result<seq<string>>, createTableError: Option<string>, fault: string -> Fault,
               applied: seq<string>): RunResult
  {
    if dir.Err? then RunResult(Some("failed to read migrations directory: " + dir.msg), applied)
    else if createTableError.Some? then
      RunResult(Some("failed to create migrations table: " + createTableError.value), applied)
    else ApplyAll(Pending(dir.value), applied, fault)
  }

  predicate NoDuplicates(s: seq<string>) {
    forall i, j :: 0 <= i < j < |s| ==> s[i] != s[j]
  }

  /**
   * Rows recorded before the run stay, in place, and every new row is a
   * pending name that was not recorded before.
   */
  lemma {:induction false} ApplyAllExtends(pending: seq<string>, applied: seq<string>, fault: string -> Fault)
    ensures var after := ApplyAll(pending, applied, fault).applied;
      && |applied| <= |after| && after[..|applied|] == applied
      && forall i :: |applied| <= i < |after| ==> after[i] in pending && after[i] !in applied
    decreases |pending|
  {
    if pending != [] {
      var file := pending[0];
      var rest := pending[1..];
      assert forall f :: f in rest ==> f in pending;
      if !fault(file).CheckFails? && file in applied {
        ApplyAllExtends(rest, applied, fault);
      } else if fault(file).NoFault? {
        var applied' := applied + [file];
        ApplyAllExtends(rest, applied', fault);
        var after := ApplyAll(rest, applied', fault).applied;
        assert after[..|applied'|] == applied';
        assert after[..|applied|] == applied'[..|applied|];
        forall i | |applied| <= i < |after| ensures after[i] in pending && after[i] !in applied {
          if i == |applied| {
            assert after[i] == after[..|applied'|][i];
          }
        }
      }
    }
  }

  /** Each migration is recorded at most once. */
  lemma {:induction false} ApplyAllNoDuplicates(pending: seq<string>, applied: seq<string>, fault: string -> Fault)
    requires NoDuplicates(applied)
    ensures NoDuplicates(ApplyAll(pending, applied, fault).applied)
    decreases |pending|
  {
    if pending != [] {
      var file := pending[0];
      if !fault(file).CheckFails? && file in applied {
        ApplyAllNoDuplicates(pending[1..], applied, fault);
      } else if fault(file).NoFault? {
        assert NoDuplicates(applied + [file]);
        ApplyAllNoDuplicates(pending[1..], applied + [file], fault);
      }
    }
  }

  lemma SortedTail(s: seq<string>)
    requires |s| > 0 && Sorting.SortedBy(s, Sorting.StrLe)
    ensures Sorting.SortedBy(s[1..], Sorting.StrLe)
  {
    forall i, j | 0 <= i < j < |s[1..]| ensures Sorting.StrLe(s[1..][i], s[1..][j]) {
      assert s[1..][i] == s[i + 1] && s[1..][j] == s[j + 1];
    }
  }

  lemma ConsSorted(x: string, t: seq<string>)
    requires Sorting.SortedBy(t, Sorting.StrLe)
    requires forall y :: y in t ==> Sorting.StrLe(x, y)
    ensures Sorting.SortedBy([x] + t, Sorting.StrLe)
  {
    forall i, j | 0 <= i < j < |[x] + t| ensures Sorting.StrLe(([x] + t)[i], ([x] + t)[j]) {
      assert ([x] + t)[j] == t[j - 1];
      if i > 0 {
        assert ([x] + t)[i] == t[i - 1];
      }
    }
  }

  /** Pending migrations are applied in ascending order of name. */
  lemma {:induction false} ApplyAllInOrder(pending: seq<string>, applied: seq<string>, fault: string -> Fault)
    requires Sorting.SortedBy(pending, Sorting.StrLe)
    ensures var after := ApplyAll(pending, applied, fault).applied;
      |applied| <= |after| && Sorting.SortedBy(after[|applied|..], Sorting.StrLe)
    decreases |pending|
  {
    ApplyAllExtends(pending, applied, fault);
    if pending != [] {
      var file := pending[0];
      var rest := pending[1..];
      SortedTail(pending);
      if !fault(file).CheckFails? && file in applied {
        ApplyAllInOrder(rest, applied, fault);
      } else if fault(file).NoFault? {
        var applied' := applied + [file];
        ApplyAllInOrder(rest, applied', fault);
        ApplyAllExtends(rest, applied', fault);
        var after := ApplyAll(rest, applied', fault).applied;
        var later := after[|applied'|..];
        assert after[..|applied'|] == applied';
        assert after[|applied|..] == [file] + later by {
          assert after[|applied|] == applied'[|applied|];
        }
        forall y | y in later ensures Sorting.StrLe(file, y) {
          var j :| 0 <= j < |later| && later[j] == y;
          assert y == after[|applied'| + j];
          var k :| 0 <= k < |rest| && rest[k] == y;
          assert pending[k + 1] == y;
        }
        ConsSorted(file, later);
      }
    }
  }

  /** A run without error leaves every pending name recorded. */
  lemma {:induction false} ApplyAllComplete(pending: seq<string>, applied: seq<string>, fault: string -> Fault)
    requires ApplyAll(pending, applied, fault).err.None?
    ensures forall f :: f in pending ==> f in ApplyAll(pending, applied, fault).applied
    decreases |pending|
  {
    if pending != [] {
      var file := pending[0];
      var applied' := if file in applied then applied else applied + [file];
      assert ApplyAll(pending, applied, fault) == ApplyAll(pending[1..], applied', fault);
      ApplyAllComplete(pending[1..], applied', fault);
      ApplyAllExtends(pending[1..], applied', fault);
      var after := ApplyAll(pending[1..], applied', fault).applied;
      assert file in applied';
      assert file in after[..|applied'|];
      assert forall f :: f in pending ==> f == file || f in pending[1..];
    }
  }

  /** When the run ends in an error, nothing from the failing file on was recorded. */
  lemma {:induction false} ApplyAllStops(pending: seq<string>, applied: seq<string>, fault: string -> Fault)
    requires ApplyAll(pending, applied, fault).err.Some?
    ensures exists i :: 0 <= i < |pending| && !fault(pending[i]).NoFault? &&
                        (forall f :: f in ApplyAll(pending, applied, fault).applied && f !in applied ==> f in pending[..i]) &&
                        (pending[i] in ApplyAll(pending, applied, fault).applied <==> pending[i] in applied)
    decreases |pending|
  {
    var file := pending[0];
    var rest := pending[1..];
    var r := ApplyAll(pending, applied, fault);
    if fault(file).CheckFails? || (file !in applied && !fault(file).NoFault?) {
      assert r.applied == applied;
      assert !fault(pending[0]).NoFault?;
    } else {
      var applied' := if file in applied then applied else applied + [file];
      assert r == ApplyAll(rest, applied', fault);
      ApplyAllStops(rest, applied', fault);
      var i :| 0 <= i < |rest| && !fault(rest[i]).NoFault? &&
               (forall f :: f in r.applied && f !in applied' ==> f in rest[..i]) &&
               (rest[i] in r.applied <==> rest[i] in applied');
      assert pending[i + 1] == rest[i];
      forall f | f in r.applied && f !in applied ensures f in pending[..i + 1] {
        if f != file {
          assert f in rest[..i];
          var k :| 0 <= k < i && rest[k] == f;
          assert pending[k + 1] == f;
        } else {
          assert pending[0] == f;
        }
      }
      if rest[i] == file {
        assert file in applied';
      }
    }
  }

  /** A fully successful run records every `.sql` entry, keeps what was recorded before, and adds nothing else. */
  lemma RunSucceeded(files: seq<string>, fault: string -> Fault, applied: seq<string>)
    requires Run(Ok(files), None, fault, applied).err.None?
    ensures var after := Run(Ok(files), None, fault, applied).applied;
      && (forall n :: n in files && IsSqlFile(n) ==> n in after)
      && |applied| <= |after| && after[..|applied|] == applied
      && (forall n :: n in after && n !in applied ==> n in files && IsSqlFile(n))
  {
    var pending := Pending(files);
    ApplyAllExtends(pending, applied, fault);
    ApplyAllComplete(pending, applied, fault);
    var after := ApplyAll(pending, applied, fault).applied;
  }

  /** A run over names that are all recorded applies nothing, whatever else the files would do. */
  lemma {:induction false} ApplyAllRecorded(pending: seq<string>, applied: seq<string>, fault: string -> Fault)
    requires forall f :: f in pending ==> f in applied && !fault(f).CheckFails?
    ensures ApplyAll(pending, applied, fault) == RunResult(None, applied)
    decreases |pending|
  {
    if pending != [] {
      assert pending[0] in pending;
      assert forall f :: f in pending[1..] ==> f in pending;
      ApplyAllRecorded(pending[1..], applied, fault);
    }
  }

  /**
   * Idempotence: after a successful run, a second run over the same
   * directory succeeds and records nothing more, as long as the status
   * queries answer.
   */
  lemma RunIdempotent(files: seq<string>, fault: string -> Fault, fault2: string -> Fault, applied: seq<string>)
    requires Run(Ok(files), None, fault, applied).err.None?
    requires forall f :: !fault2(f).CheckFails?
    ensures var after := Run(Ok(files), None, fault, applied).applied;
            Run(Ok(files), None, fault2, after) == RunResult(None, after)
  {
    var pending := Pending(files);
    ApplyAllComplete(pending, applied, fault);
    ApplyAllRecorded(pending, ApplyAll(pending, applied, fault).applied, fault2);
  }

  /** The migrations table. A rolled-back file leaves no trace, so the table is also the list of files that took effect. */
  class MigrationDb {
    var applied: seq<string>

    constructor (recorded: seq<string>)
      ensures applied == recorded
    {
      applied := recorded;
    }

    /** `RunMigrations(db, dir)`: `dir` is the directory listing or the error reading it. */
    method RunMigrations(dir: Result<seq<string>>, createTableError: Option<string>, fault: string -> Fault)
      returns (err: Option<string>)
      modifies this
      ensures RunResult(err, applied) == Run(dir, createTableError, fault, old(applied))
    {
      if dir.Err? {
        return Some("failed to read migrations directory: " + dir.msg);
      }
      var migrationFiles := SqlFiles(dir.value);
      migrationFiles := Sorting.SortStrings(migrationFiles);
      if createTableError.Some? {
        return Some("failed to create migrations table: " + createTableError.value);
      }
      err := ApplyPending(migrationFiles, fault);
    }

    method ApplyPending(migrationFiles: seq<string>, fault: string -> Fault) returns (err: Option<string>)
      modifies this
      ensures RunResult(err, applied) == ApplyAll(migrationFiles, old(applied), fault)
    {
      ghost var total := ApplyAll(migrationFiles, applied, fault);
      for i := 0 to |migrationFiles|
        invariant ApplyAll(migrationFiles[i..], applied, fault) == total
      {
        var file := migrationFiles[i];
        assert migrationFiles[i..][1..] == migrationFiles[i + 1..];
        var f := fault(file);
        if f.CheckFails? {
          return Some(CheckPrefix + f.err);
        }
        if file !in applied {
          if f.StepFails? {
            return Some(StepError(f.step, file, f.err));
          }
          applied := applied + [file];
        }
      }
      err := None;
    }
  }

  /** The first loop of `RunMigrations`: keep the `*.sql` entries. */
  method SqlFiles(files: seq<string>) returns (migrationFiles: seq<string>)
    ensures migrationFiles == SqlNames(files)
  {
    migrationFiles := [];
    for i := 0 to |files|
      invariant migrationFiles == SqlNames(files[..i])
    {
      assert files[..i + 1] == files[..i] + [files[i]];
      SqlNamesAppend(files[..i], files[i]);
      if IsSqlFile(files[i]) {
        migrationFiles := migrationFiles + [files[i]];
      }
    }
    assert files[..|files|] == files;
  }
}
