/** The validate stage: run the repository's validation commands in a sandbox
    container over a copy of the worktree, collecting one failure entry per failed
    step; no failures hands over to review, otherwise the entries become the error. */
module ValidateNode {
  import opened Wrappers
  import opened Text
  import opened Domain
  import opened State
  import opened Stage

  datatype ExecResult = ExecResult(stdout: string, stderr: string, exitCode: int)

  /** The container's answers: the bootstrap script's result and the result of the
      k-th validation command. */
  datatype World = World(bootstrap: ExecResult, commandResult: nat -> ExecResult)

  const SourceWorkdir: string := "/workspace"
  const SandboxWorkdir: string := "/tmp/workspace"

  /** The bootstrap script: a fresh copy of the read-only worktree, then the install. */
  const BootstrapScript: string := Join([
    "set -eu",
    "rm -rf " + SandboxWorkdir,
    "mkdir -p " + SandboxWorkdir,
    "cp -a " + SourceWorkdir + "/. " + SandboxWorkdir,
    "cd " + SandboxWorkdir,
    "corepack enable >/dev/null 2>&1 || true",
    "pnpm install --frozen-lockfile --ignore-scripts"], " && ")

  /** The worktree mounted read-only at /workspace. */
  function Binds(worktreePath: string): seq<string> {
    [worktreePath + ":" + SourceWorkdir + ":ro"]
  }

  /** A validation command, run inside the sandbox copy. */
  function Wrapped(cmd: string): string {
    "cd " + SandboxWorkdir + " && " + cmd
  }

  function BootstrapEntry(res: ExecResult): string {
    Join(["Command: [bootstrap validation workspace]", "Stdout: " + res.stdout, "Stderr: " + res.stderr], "\n")
  }

  function FailureEntry(cmd: string, res: ExecResult): string {
    "Command: " + cmd + "\nStdout: " + res.stdout + "\nStderr: " + res.stderr
  }

  /** The indices below `n` of the commands that exit non-zero, in increasing order. */
  function FailingBelow(commands: seq<string>, w: World, n: nat): (r: seq<nat>)
    requires n <= |commands|
    ensures forall i :: 0 <= i < |r| ==> r[i] < n
  {
    if n == 0 then []
    else FailingBelow(commands, w, n - 1) + (if w.commandResult(n - 1).exitCode != 0 then [n - 1] else [])
  }

  /** Exactly the commands below `n` that exit non-zero are listed. */
  lemma {:induction false} FailingBelowSpec(commands: seq<string>, w: World, n: nat)
    requires n <= |commands|
    ensures forall k: nat :: k in FailingBelow(commands, w, n) <==> k < n && w.commandResult(k).exitCode != 0
  {
    if n > 0 {
      FailingBelowSpec(commands, w, n - 1);
    }
  }

  predicate Ascending(r: seq<nat>) {
    forall i, j :: 0 <= i < j < |r| ==> r[i] < r[j]
  }

  /** The failing indices come in command order. */
  lemma {:induction false} FailingBelowIncreasing(commands: seq<string>, w: World, n: nat)
    requires n <= |commands|
    ensures Ascending(FailingBelow(commands, w, n))
  {
    if n > 0 {
      FailingBelowIncreasing(commands, w, n - 1);
      FailingBelowSpec(commands, w, n - 1);
      var p := FailingBelow(commands, w, n - 1);
      var r := FailingBelow(commands, w, n);
      assert r == p + (if w.commandResult(n - 1).exitCode != 0 then [n - 1] else []);
      forall i, j | 0 <= i < j < |r| ensures r[i] < r[j] {
        assert r[i] == p[i] && p[i] < n - 1;
        if j < |p| {
          assert r[j] == p[j];
        }
      }
    }
  }

  /** The failure entries of the commands at `idx`, in that order. */
  function EntriesFor(commands: seq<string>, w: World, idx: seq<nat>): (r: seq<string>)
    requires forall i :: 0 <= i < |idx| ==> idx[i] < |commands|
    ensures |r| == |idx|
  {
    if idx == [] then [] else EntriesFor(commands, w, idx[..|idx| - 1]) + [FailureEntry(commands[idx[|idx| - 1]], w.commandResult(idx[|idx| - 1]))]
  }

  /** The i-th entry reports the i-th listed command and its result. */
  lemma {:induction false} EntriesForSpec(commands: seq<string>, w: World, idx: seq<nat>)
    requires forall i :: 0 <= i < |idx| ==> idx[i] < |commands|
    ensures var r := EntriesFor(commands, w, idx);
      forall i :: 0 <= i < |idx| ==> r[i] == FailureEntry(commands[idx[i]], w.commandResult(idx[i]))
  {
    if idx != [] {
      EntriesForSpec(commands, w, idx[..|idx| - 1]);
    }
  }

  /** The failure entries: the bootstrap's alone when it fails, else one per failing
      command in command order. */
  function Failures(commands: seq<string>, w: World): (r: seq<string>)
    ensures w.bootstrap.exitCode != 0 ==> r == [BootstrapEntry(w.bootstrap)]
    ensures w.bootstrap.exitCode == 0 ==> |r| == |FailingBelow(commands, w, |commands|)|
  {
    if w.bootstrap.exitCode != 0 then [BootstrapEntry(w.bootstrap)]
    else
      EntriesFor(commands, w, FailingBelow(commands, w, |commands|))
  }

  /** Nothing fails exactly when the bootstrap and every command exit zero. */
  lemma FailuresEmptyIff(commands: seq<string>, w: World)
    ensures Failures(commands, w) == [] <==>
      w.bootstrap.exitCode == 0 && forall k :: 0 <= k < |commands| ==> w.commandResult(k).exitCode == 0
  {
    if w.bootstrap.exitCode == 0 {
      var idx := FailingBelow(commands, w, |commands|);
      FailingBelowSpec(commands, w, |commands|);
      if idx != [] {
        assert idx[0] in idx;
      }
      if exists k :: 0 <= k < |commands| && w.commandResult(k).exitCode != 0 {
        var k :| 0 <= k < |commands| && w.commandResult(k).exitCode != 0;
        assert (k as nat) in idx;
      }
    }
  }

  /** One more command adds its entry when it fails and nothing otherwise. */
  lemma EntriesNext(commands: seq<string>, w: World, k: nat)
    requires k < |commands|
    ensures EntriesFor(commands, w, FailingBelow(commands, w, k + 1)) ==
      EntriesFor(commands, w, FailingBelow(commands, w, k))
      + (if w.commandResult(k).exitCode != 0 then [FailureEntry(commands[k], w.commandResult(k))] else [])
  {
    var idx := FailingBelow(commands, w, k);
    if w.commandResult(k).exitCode != 0 {
      assert FailingBelow(commands, w, k + 1) == idx + [k];
      assert (idx + [k])[..|idx|] == idx;
    } else {
      assert FailingBelow(commands, w, k + 1) == idx;
    }
  }

  /** The container callback: bootstrap, then every command even after failures. */
  method RunValidation(commands: seq<string>, w: World) returns (failures: seq<string>)
    ensures failures == Failures(commands, w)
  {
    failures := [];
    if w.bootstrap.exitCode != 0 {
      failures := failures + [BootstrapEntry(w.bootstrap)];
      return;
    }
    var k := 0;
    while k < |commands|
      invariant 0 <= k <= |commands|
      invariant failures == EntriesFor(commands, w, FailingBelow(commands, w, k))
    {
      var result := w.commandResult(k);
      EntriesNext(commands, w, k);
      if result.exitCode != 0 {
        failures := failures + [FailureEntry(commands[k], result)];
      }
      k := k + 1;
    }
  }

  /** The calls: the status sync, then the container with the bootstrap and, when it
      succeeds, every wrapped command. */
  function ValidateEffects(s: CodingState, w: World): seq<Effect> {
    var ctx := s.context;
    var sync := [SyncStatus(ctx.runId, Validating)];
    if ctx.validationCommands.None? || |ctx.validationCommands.value| == 0 || !Truthy(ctx.worktreePath) then sync
    else
      var commands := ctx.validationCommands.value;
      sync + [StartContainer(Binds(ctx.worktreePath.value)), Exec(BootstrapScript)]
      + (if w.bootstrap.exitCode != 0 then [] else ExecAll(commands))
  }

  function ExecAll(commands: seq<string>): (r: seq<Effect>)
    ensures |r| == |commands| && forall i :: 0 <= i < |commands| ==> r[i] == Exec(Wrapped(commands[i]))
  {
    if commands == [] then [] else [Exec(Wrapped(commands[0]))] + ExecAll(commands[1..])
  }

  /** No commands or no worktree: straight to review. Otherwise no failures hands over
      to review with the error cleared, and failures set only the error, to the
      entries joined by "\n---\n". */
  function Validate(s: CodingState, w: World): (r: StageResult)
    ensures r.outcome.Updated?
    ensures r.effects == ValidateEffects(s, w)
    ensures var ctx := s.context;
      var ran := ctx.validationCommands.Some? && |ctx.validationCommands.value| > 0 && Truthy(ctx.worktreePath);
      if ran && Failures(ctx.validationCommands.value, w) != [] then
        r.outcome.update == NoUpdate.(error := Put(Some(Join(Failures(ctx.validationCommands.value, w), "\n---\n"))))
      else
        r.outcome.update == NoUpdate.(status := Put(Reviewing), error := Put(None))
  {
    var ctx := s.context;
    var passed := NoUpdate.(status := Put(Reviewing), error := Put(None));
    if ctx.validationCommands.None? || |ctx.validationCommands.value| == 0 || !Truthy(ctx.worktreePath) then
      StageResult(ValidateEffects(s, w), Updated(passed))
    else
      var failures := Failures(ctx.validationCommands.value, w);
      if |failures| == 0 then StageResult(ValidateEffects(s, w), Updated(passed))
      else StageResult(ValidateEffects(s, w), Updated(NoUpdate.(error := Put(Some(Join(failures, "\n---\n"))))))
  }

  /** Joining non-empty entries gives a non-empty text. */
  lemma {:induction false} JoinNonEmpty(parts: seq<string>, sep: string)
    requires parts != [] && parts[0] != ""
    ensures Join(parts, sep) != ""
  {
    if |parts| > 1 {
      assert Join(parts, sep) == parts[0] + sep + Join(parts[1..], sep);
      assert |Join(parts, sep)| >= |parts[0]|;
    }
  }

  /** The error is truthy exactly when validation ran and something failed: so the
      router sends the run to review iff nothing failed. */
  lemma ValidateErrorIffFailures(s: CodingState, w: World)
    ensures var u := Validate(s, w).outcome.update;
      var ran := s.context.validationCommands.Some? && |s.context.validationCommands.value| > 0 && Truthy(s.context.worktreePath);
      && u.error == (if ran && Failures(s.context.validationCommands.value, w) != []
           then Put(Some(Join(Failures(s.context.validationCommands.value, w), "\n---\n"))) else Put(None))
      && (Truthy(u.error.value) <==> ran && Failures(s.context.validationCommands.value, w) != [])
      && (u.status == Put(Reviewing) <==> !Truthy(u.error.value))
      && (u.status != Put(Reviewing) ==> u.status.Keep?)
  {
    var ctx := s.context;
    if ctx.validationCommands.Some? && |ctx.validationCommands.value| > 0 && Truthy(ctx.worktreePath) {
      var failures := Failures(ctx.validationCommands.value, w);
      if failures != [] {
        assert failures[0] != "" by {
          if w.bootstrap.exitCode != 0 {
            JoinNonEmpty(["Command: [bootstrap validation workspace]", "Stdout: " + w.bootstrap.stdout, "Stderr: " + w.bootstrap.stderr], "\n");
          } else {
            var idx := FailingBelow(ctx.validationCommands.value, w, |ctx.validationCommands.value|);
            FailingBelowSpec(ctx.validationCommands.value, w, |ctx.validationCommands.value|);
            EntriesForSpec(ctx.validationCommands.value, w, idx);
            assert failures[0] == FailureEntry(ctx.validationCommands.value[idx[0]], w.commandResult(idx[0]));
          }
        }
        JoinNonEmpty(failures, "\n---\n");
      }
    }
  }

  /** A failed bootstrap yields exactly one failure and runs no validation command. */
  lemma BootstrapFailureStops(s: CodingState, w: World)
    requires w.bootstrap.exitCode != 0
    requires s.context.validationCommands.Some? && |s.context.validationCommands.value| > 0 && Truthy(s.context.worktreePath)
    ensures Validate(s, w).outcome.update.error == Put(Some(BootstrapEntry(w.bootstrap)))
    ensures |Validate(s, w).effects| == 3
  {
  }

  /** Every command runs, one wrapped exec each in order, whatever the earlier exits. */
  lemma EveryCommandRuns(s: CodingState, w: World)
    requires w.bootstrap.exitCode == 0
    requires s.context.validationCommands.Some? && |s.context.validationCommands.value| > 0 && Truthy(s.context.worktreePath)
    ensures var cmds := s.context.validationCommands.value;
      && |Validate(s, w).effects| == 3 + |cmds|
      && forall i :: 0 <= i < |cmds| ==> Validate(s, w).effects[3 + i] == Exec(Wrapped(cmds[i]))
  {
  }
}
