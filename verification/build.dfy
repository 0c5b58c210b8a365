/**
 The incremental directory build: the staleness test against the
 compiled-files record, the `uptodate` flag of each unit's side table (its
 "ir_gc_map"), one unit's compilation, and the work stack that compiles a
 unit's dependencies before it.

 File contents, the fingerprint (`std::hash`), the parser and the compiler are
 parameters: the parser yields the diagnostics of a text and the compiler
 either finishes with the unit's side table or reports a dependency that is
 not compiled yet. Writing files, JSON and `clang` are not modelled.
 */
module Build {
  import opened Diagnostics
  import opened Paths

  /** The compiled-files record: each unit path with the fingerprint of the text last compiled. */
  type Record = map<string, nat>

  /** A unit's side table: its `uptodate` flag and the `functions` and `structs` tables. */
  datatype SideTable = SideTable(uptodate: bool, functions: map<string, string>, structs: map<string, string>)

  /** What the compiler does with a parsed unit: stop at a dependency not compiled yet, or finish. */
  datatype Outcome = Blocked(dep: string) | Compiled(table: SideTable)

  /**
   The parts of the toolchain the build only calls: the fingerprint of a
   text, the parse errors of a text, and the compiler given the unit's path,
   its text and the side tables as they stand.
   */
  datatype Toolchain = Toolchain(
    hash: string -> nat,
    parse: string -> seq<Diagnostic>,
    compile: (string, string, map<string, SideTable>) -> Outcome)

  /** `readFileToString`: the contents of the file, or "" when it cannot be opened. */
  function ReadFile(files: map<string, string>, path: string): string {
    if path in files then files[path] else ""
  }

  /** The staleness test: the record holds the path with the fingerprint of its current text. */
  predicate UpToDate(tc: Toolchain, files: map<string, string>, record: Record, path: string) {
    path in record && record[path] == tc.hash(ReadFile(files, path))
  }

  /**
   Writing a unit's current fingerprint into the record makes the unit up to
   date and leaves every other unit's staleness as it was.
   */
  lemma RecordMakesUpToDate(tc: Toolchain, files: map<string, string>, record: Record, path: string)
    ensures UpToDate(tc, files, record[path := tc.hash(ReadFile(files, path))], path)
    ensures forall q :: q != path ==>
      (UpToDate(tc, files, record[path := tc.hash(ReadFile(files, path))], q) <==> UpToDate(tc, files, record, q))
  {
  }

  /**
   What the build has changed so far: the record, the side tables by their
   path, and the units whose IR was written, in order.
   */
  datatype BuildState = BuildState(record: Record, tables: map<string, SideTable>, compiled: seq<string>)

  /**
   `setIrGcMap`: a side table that does not exist yet starts with
   `uptodate` false and empty `functions` and `structs`; an existing one keeps
   its tables. Either way `uptodate` becomes the staleness test of the unit.
   The record and every other side table are left as they are.
   */
  function SetIrGcMap(tc: Toolchain, files: map<string, string>, path: string, mapPath: string, st: BuildState): (r: BuildState)
    ensures r.record == st.record && r.compiled == st.compiled
    ensures r.tables.Keys == st.tables.Keys + {mapPath}
    ensures r.tables[mapPath].uptodate <==> UpToDate(tc, files, st.record, path)
    ensures mapPath !in st.tables ==> r.tables[mapPath].functions == map[] && r.tables[mapPath].structs == map[]
    ensures mapPath in st.tables ==>
      r.tables[mapPath].functions == st.tables[mapPath].functions
      && r.tables[mapPath].structs == st.tables[mapPath].structs
    ensures forall k :: k in st.tables && k != mapPath ==> r.tables[k] == st.tables[k]
  {
    var table := if mapPath in st.tables then st.tables[mapPath] else SideTable(false, map[], map[]);
    var current := path in st.record && st.record[path] == tc.hash(ReadFile(files, path));
    st.(tables := st.tables[mapPath := table.(uptodate := current)])
  }

  /** The four paths of one unit's compilation: source, IR, side table, object file. */
  datatype Job = Job(source: string, ir: string, irGcMap: string, obj: string)

  /** How `compileFile` returned: skipped, stopped at parse errors, thrown `NotCompiledError`, or done. */
  datatype Result = Skipped | ParseFailed(errors: seq<Diagnostic>) | NotCompiled(dep: string) | Done

  datatype Attempt = Attempt(result: Result, state: BuildState)

  /**
   `compileFile`. A unit is skipped exactly when it is up to date. Otherwise
   parse errors stop it; then the compiler either throws for a dependency or
   finishes. The state changes only when it finishes: the record then maps
   this unit, and only it, to the fingerprint of its text, its side table is
   the compiler's with `uptodate` set, and it is listed as compiled.
   */
  function CompileFile(tc: Toolchain, files: map<string, string>, job: Job, st: BuildState): (a: Attempt)
    ensures a.result.Skipped? <==> UpToDate(tc, files, st.record, job.source)
    ensures a.result.ParseFailed? <==>
      !UpToDate(tc, files, st.record, job.source) && |tc.parse(ReadFile(files, job.source))| > 0
    ensures a.result.ParseFailed? ==> a.result.errors == tc.parse(ReadFile(files, job.source))
    ensures a.result.NotCompiled? <==>
      && !UpToDate(tc, files, st.record, job.source)
      && |tc.parse(ReadFile(files, job.source))| == 0
      && tc.compile(job.source, ReadFile(files, job.source), st.tables).Blocked?
    ensures a.result.NotCompiled? ==>
      tc.compile(job.source, ReadFile(files, job.source), st.tables) == Blocked(a.result.dep)
    ensures a.result.Done? <==>
      && !UpToDate(tc, files, st.record, job.source)
      && |tc.parse(ReadFile(files, job.source))| == 0
      && tc.compile(job.source, ReadFile(files, job.source), st.tables).Compiled?
    ensures !a.result.Done? ==> a.state == st
    ensures a.result.Done? ==>
      && UpToDate(tc, files, a.state.record, job.source)
      && a.state.record.Keys == st.record.Keys + {job.source}
      && (forall k :: k in st.record && k != job.source ==> a.state.record[k] == st.record[k])
      && a.state.tables.Keys == st.tables.Keys + {job.irGcMap}
      && a.state.tables[job.irGcMap]
           == tc.compile(job.source, ReadFile(files, job.source), st.tables).table.(uptodate := true)
      && (forall k :: k in st.tables && k != job.irGcMap ==> a.state.tables[k] == st.tables[k])
      && a.state.compiled == st.compiled + [job.source]
  {
    var text := ReadFile(files, job.source);
    var fingerprint := tc.hash(text);
    if job.source in st.record && st.record[job.source] == fingerprint then
      Attempt(Skipped, st)
    else
      var errors := tc.parse(text);
      if |errors| > 0 then
        Attempt(ParseFailed(errors), st)
      else
        match tc.compile(job.source, text, st.tables)
        case Blocked(dep) => Attempt(NotCompiled(dep), st)
        case Compiled(table) =>
          Attempt(Done, BuildState(
            st.record[job.source := fingerprint],
            st.tables[job.irGcMap := table.(uptodate := true)],
            st.compiled + [job.source]))
  }

  /**
   A unit that cannot be opened reads as "": `compileFile` treats it exactly
   as it would the same unit with an empty text.
   */
  lemma UnreadableAsEmpty(tc: Toolchain, files: map<string, string>, job: Job, st: BuildState)
    requires job.source !in files
    ensures ReadFile(files, job.source) == ""
    ensures CompileFile(tc, files, job, st) == CompileFile(tc, files[job.source := ""], job, st)
  {
  }

  /** Right after a unit is compiled, compiling it again with the same files skips it and changes nothing. */
  lemma CompileThenSkip(tc: Toolchain, files: map<string, string>, job: Job, st: BuildState)
    requires CompileFile(tc, files, job, st).result.Done?
    ensures var after := CompileFile(tc, files, job, st).state;
      CompileFile(tc, files, job, after) == Attempt(Skipped, after)
  {
  }

  /** A unit up to date stays up to date whatever unit is compiled next. */
  lemma CompileKeepsUpToDate(tc: Toolchain, files: map<string, string>, job: Job, st: BuildState, path: string)
    requires UpToDate(tc, files, st.record, path)
    ensures UpToDate(tc, files, CompileFile(tc, files, job, st).state.record, path)
  {
  }

  /**
   The refresh pass and the compile pass apply the same staleness test: right
   after `setIrGcMap`, a unit's side table says up to date exactly when
   `compileFile` would skip the unit.
   */
  lemma RefreshMatchesSkip(tc: Toolchain, files: map<string, string>, job: Job, st: BuildState)
    ensures var refreshed := SetIrGcMap(tc, files, job.source, job.irGcMap, st);
      refreshed.tables[job.irGcMap].uptodate <==> CompileFile(tc, files, job, refreshed).result.Skipped?
  {
  }

  // ---------------------------------------------------------------------------
  // The work stack

  /** The job of a unit path: its artifacts are named after its path relative to `srcDir`. */
  function JobFor(srcDir: string, buildDir: string, path: string): Job {
    var rel := Relative(path, srcDir);
    Job(path, IrPath(buildDir, rel), IrGcMapPath(buildDir, rel), ObjPath(buildDir, rel))
  }

  /**
   The job of the unit `srcDir/rel`, pushed by the seed and by the catch of a
   `NotCompiledError` alike: the unit's path and its artifacts named after
   `rel` without its ".gc".
   */
  lemma JobForUnit(srcDir: string, buildDir: string, rel: string)
    requires Extension(FileName(rel)) == ".gc"
    ensures var stem := rel[..|rel| - 3];
      JobFor(srcDir, buildDir, srcDir + "/" + rel)
        == Job(srcDir + "/" + rel, buildDir + "/ir/" + stem + ".ll",
               buildDir + "/ir_gc_map/" + stem + ".json", buildDir + "/obj/" + stem + ".o")
  {
    RelativeOfChild(srcDir, rel);
    UnitArtifacts(buildDir, rel);
  }

  /** One `compileFile` call of the loop, and how it returned. */
  datatype Event = Event(job: Job, result: Result)

  datatype StepResult = StepResult(stack: seq<Job>, state: BuildState, event: Event)

  /**
   One turn of the loop of `compileDirectory`: `compileFile` on the top of
   the stack. A normal return pops exactly that job; a `NotCompiledError`
   leaves it in place and pushes the dependency's job above it.
   */
  function Step(tc: Toolchain, files: map<string, string>, srcDir: string, buildDir: string, stack: seq<Job>, st: BuildState): (r: StepResult)
    requires |stack| > 0
    ensures r.event.job == stack[|stack| - 1]
    ensures r.event.result == CompileFile(tc, files, stack[|stack| - 1], st).result
    ensures r.state == CompileFile(tc, files, stack[|stack| - 1], st).state
    ensures r.event.result.NotCompiled? ==>
      |r.stack| == |stack| + 1 && r.stack[..|stack|] == stack
      && r.stack[|stack|] == JobFor(srcDir, buildDir, r.event.result.dep)
    ensures !r.event.result.NotCompiled? ==> r.stack == stack[..|stack| - 1]
  {
    var top := stack[|stack| - 1];
    var a := CompileFile(tc, files, top, st);
    match a.result
    case NotCompiled(dep) =>
      assert (stack + [JobFor(srcDir, buildDir, dep)])[..|stack|] == stack;
      StepResult(stack + [JobFor(srcDir, buildDir, dep)], a.state, Event(top, a.result))
    case _ => StepResult(stack[..|stack| - 1], a.state, Event(top, a.result))
  }

  /**
   The shape of the work stack seeded with `seed` after the calls in
   `trace`: the seed stays at the bottom while the stack is non-empty and
   is the first call; the stack empties only by the seed returning normally;
   after a `NotCompiledError` the dependency's job is on top.
   */
  predicate Shape(srcDir: string, buildDir: string, seed: Job, stack: seq<Job>, trace: seq<Event>) {
    && (|stack| > 0 ==> stack[0] == seed)
    && (|trace| == 0 ==> stack == [seed])
    && (|trace| > 0 ==> trace[0].job == seed)
    && (|stack| == 0 ==>
          |trace| > 0 && trace[|trace| - 1].job == seed && !trace[|trace| - 1].result.NotCompiled?)
    && (|trace| > 0 && trace[|trace| - 1].result.NotCompiled? ==>
          && |stack| >= 2
          && stack[|stack| - 1] == JobFor(srcDir, buildDir, trace[|trace| - 1].result.dep)
          && stack[|stack| - 2] == trace[|trace| - 1].job)
    && (|trace| >= 2 && trace[|trace| - 2].result.NotCompiled? && !trace[|trace| - 1].result.NotCompiled? ==>
          |stack| > 0 && stack[|stack| - 1] == trace[|trace| - 2].job)
  }

  /** Dependencies first: the call after a `NotCompiledError` for `dep` is the one on `dep`'s job. */
  predicate Ordered(srcDir: string, buildDir: string, trace: seq<Event>) {
    forall k :: 0 <= k < |trace| - 1 && trace[k].result.NotCompiled? ==>
      trace[k + 1].job == JobFor(srcDir, buildDir, trace[k].result.dep)
  }

  /**
   Retry after the dependency: when the call on the dependency named by a
   `NotCompiledError` returns normally, the very next call retries the unit
   that raised it.
   */
  predicate Retried(trace: seq<Event>) {
    forall k :: 0 <= k && k + 2 < |trace| && trace[k].result.NotCompiled? && !trace[k + 1].result.NotCompiled? ==>
      trace[k + 2].job == trace[k].job
  }

  /**
   Progress is never lost: units up to date in `record0` are up to date in
   `record`, and so is every unit a call in `trace` compiled or skipped.
   */
  predicate Fresh(tc: Toolchain, files: map<string, string>, record0: Record, record: Record, trace: seq<Event>) {
    && (forall p :: p in record0 && UpToDate(tc, files, record0, p) ==> UpToDate(tc, files, record, p))
    && (forall k :: 0 <= k < |trace| && (trace[k].result.Done? || trace[k].result.Skipped?) ==>
          UpToDate(tc, files, record, trace[k].job.source))
  }

  /**
   The calls in `trace` are `compileFile` calls made one after another: the
   `k`-th saw the state `states[k]` and left `states[k + 1]`; the first saw
   `st0` and the last left `st`.
   */
  predicate Calls(tc: Toolchain, files: map<string, string>, st0: BuildState, states: seq<BuildState>,
                  trace: seq<Event>, st: BuildState) {
    && |states| == |trace| + 1 && states[0] == st0 && states[|trace|] == st
    && (forall k :: 0 <= k < |trace| ==>
          CompileFile(tc, files, trace[k].job, states[k]) == Attempt(trace[k].result, states[k + 1]))
  }

  /**
   The run is the source's loop turn by turn: `stacks[k]` and `states[k]` are
   the work stack and the state before call `k`, and each turn is exactly one
   `Step` from them to `stacks[k + 1]` and `states[k + 1]`. This pins every
   push, pop and retry, however deep the chain of dependencies.
   */
  predicate Run(tc: Toolchain, files: map<string, string>, srcDir: string, buildDir: string,
                stacks: seq<seq<Job>>, states: seq<BuildState>, trace: seq<Event>) {
    && |stacks| == |trace| + 1 && |states| == |trace| + 1
    && (forall k :: 0 <= k < |trace| ==>
          |stacks[k]| > 0
          && Step(tc, files, srcDir, buildDir, stacks[k], states[k]) == StepResult(stacks[k + 1], states[k + 1], trace[k]))
  }

  /** `record` holds the entry `record0` holds for `p`, or lacks one as `record0` does. */
  predicate SameEntry(record0: Record, record: Record, p: string) {
    && (p in record0 <==> p in record)
    && (p in record0 ==> record0[p] == record[p])
  }

  /** Some call in `trace` compiled the unit `p`. */
  ghost predicate DoneIn(trace: seq<Event>, p: string) {
    exists k :: 0 <= k < |trace| && trace[k].result.Done? && trace[k].job.source == p
  }

  /** The record changed only at units a call in `trace` compiled. */
  ghost predicate Framed(record0: Record, record: Record, trace: seq<Event>) {
    forall p :: !DoneIn(trace, p) ==> SameEntry(record0, record, p)
  }

  /** A unit whose text has parse errors keeps its record entry, or its lack of one. */
  ghost predicate ParseErrorsKept(tc: Toolchain, files: map<string, string>, record0: Record, record: Record) {
    forall p :: |tc.parse(ReadFile(files, p))| > 0 ==> SameEntry(record0, record, p)
  }

  /** Every unit a call in `trace` stopped at parse errors has them and is still not up to date. */
  predicate Stale(tc: Toolchain, files: map<string, string>, record: Record, trace: seq<Event>) {
    forall k :: 0 <= k < |trace| && trace[k].result.ParseFailed? ==>
      && |tc.parse(ReadFile(files, trace[k].job.source))| > 0
      && !UpToDate(tc, files, record, trace[k].job.source)
  }

  lemma StepShape(tc: Toolchain, files: map<string, string>, srcDir: string, buildDir: string,
                  seed: Job, stack: seq<Job>, st: BuildState, trace: seq<Event>)
    requires |stack| > 0 && Shape(srcDir, buildDir, seed, stack, trace)
    ensures var s := Step(tc, files, srcDir, buildDir, stack, st);
      Shape(srcDir, buildDir, seed, s.stack, trace + [s.event])
  {
    var s := Step(tc, files, srcDir, buildDir, stack, st);
    var next := trace + [s.event];
    assert next[|next| - 1] == s.event;
    if |trace| > 0 {
      assert next[0] == trace[0];
    }
    if s.event.result.NotCompiled? {
      assert s.stack[0] == stack[0];
    } else if |s.stack| > 0 {
      assert s.stack[0] == stack[0];
    }
  }

  lemma StepOrdered(tc: Toolchain, files: map<string, string>, srcDir: string, buildDir: string,
                    seed: Job, stack: seq<Job>, st: BuildState, trace: seq<Event>)
    requires |stack| > 0 && Shape(srcDir, buildDir, seed, stack, trace) && Ordered(srcDir, buildDir, trace)
    ensures var s := Step(tc, files, srcDir, buildDir, stack, st);
      Ordered(srcDir, buildDir, trace + [s.event])
  {
    var s := Step(tc, files, srcDir, buildDir, stack, st);
    var next := trace + [s.event];
    forall k | 0 <= k < |next| - 1 && next[k].result.NotCompiled?
      ensures next[k + 1].job == JobFor(srcDir, buildDir, next[k].result.dep)
    {
      assert next[k] == trace[k];
      if k + 1 == |trace| {
        assert next[k + 1] == s.event;
      } else {
        assert next[k + 1] == trace[k + 1];
      }
    }
  }

  lemma StepRetried(tc: Toolchain, files: map<string, string>, srcDir: string, buildDir: string,
                    seed: Job, stack: seq<Job>, st: BuildState, trace: seq<Event>)
    requires |stack| > 0 && Shape(srcDir, buildDir, seed, stack, trace) && Retried(trace)
    ensures var s := Step(tc, files, srcDir, buildDir, stack, st);
      Retried(trace + [s.event])
  {
    var s := Step(tc, files, srcDir, buildDir, stack, st);
    var next := trace + [s.event];
    forall k | 0 <= k && k + 2 < |next| && next[k].result.NotCompiled? && !next[k + 1].result.NotCompiled?
      ensures next[k + 2].job == next[k].job
    {
      assert next[k] == trace[k] && next[k + 1] == trace[k + 1];
      if k + 2 == |trace| {
        assert next[k + 2] == s.event;
      } else {
        assert next[k + 2] == trace[k + 2];
      }
    }
  }

  lemma StepFresh(tc: Toolchain, files: map<string, string>, srcDir: string, buildDir: string,
                  stack: seq<Job>, st: BuildState, record0: Record, trace: seq<Event>)
    requires |stack| > 0 && Fresh(tc, files, record0, st.record, trace)
    ensures var s := Step(tc, files, srcDir, buildDir, stack, st);
      Fresh(tc, files, record0, s.state.record, trace + [s.event])
  {
    var s := Step(tc, files, srcDir, buildDir, stack, st);
    var next := trace + [s.event];
    forall p | UpToDate(tc, files, st.record, p)
      ensures UpToDate(tc, files, s.state.record, p)
    {
      CompileKeepsUpToDate(tc, files, stack[|stack| - 1], st, p);
    }
    assert forall k :: 0 <= k < |trace| ==> next[k] == trace[k];
    assert next[|trace|] == s.event;
  }

  /** One turn is one more `compileFile` call, on the state the previous one left. */
  lemma StepRun(tc: Toolchain, files: map<string, string>, srcDir: string, buildDir: string,
                stacks: seq<seq<Job>>, states: seq<BuildState>, trace: seq<Event>)
    requires Run(tc, files, srcDir, buildDir, stacks, states, trace)
    requires |stacks[|trace|]| > 0
    ensures var s := Step(tc, files, srcDir, buildDir, stacks[|trace|], states[|trace|]);
      Run(tc, files, srcDir, buildDir, stacks + [s.stack], states + [s.state], trace + [s.event])
  {
    var s := Step(tc, files, srcDir, buildDir, stacks[|trace|], states[|trace|]);
    var stacks', states', trace' := stacks + [s.stack], states + [s.state], trace + [s.event];
    forall k | 0 <= k < |trace'|
      ensures |stacks'[k]| > 0
        && Step(tc, files, srcDir, buildDir, stacks'[k], states'[k]) == StepResult(stacks'[k + 1], states'[k + 1], trace'[k])
    {
      if k < |trace| {
        assert stacks'[k] == stacks[k] && stacks'[k + 1] == stacks[k + 1];
        assert states'[k] == states[k] && states'[k + 1] == states[k + 1] && trace'[k] == trace[k];
      } else {
        assert stacks'[k] == stacks[|trace|] && stacks'[k + 1] == s.stack;
        assert states'[k] == states[|trace|] && states'[k + 1] == s.state && trace'[k] == s.event;
      }
    }
  }

  /**
   Between call `k`, which raised a `NotCompiledError`, and the first later
   turn `l` whose stack is no deeper than `stacks[k]`, the jobs below the
   pushed dependency stay in place.
   */
  lemma {:induction false} RunKeepsBelow(tc: Toolchain, files: map<string, string>, srcDir: string, buildDir: string,
                                         stacks: seq<seq<Job>>, states: seq<BuildState>, trace: seq<Event>, k: nat, l: nat)
    requires Run(tc, files, srcDir, buildDir, stacks, states, trace)
    requires k < l <= |trace| && trace[k].result.NotCompiled?
    requires forall i :: k < i < l ==> |stacks[i]| > |stacks[k]|
    ensures |stacks[l]| >= |stacks[k]| && stacks[l][..|stacks[k]|] == stacks[k]
  {
    var n := |stacks[k]|;
    if l == k + 1 {
      assert Step(tc, files, srcDir, buildDir, stacks[k], states[k]) == StepResult(stacks[k + 1], states[k + 1], trace[k]);
    } else {
      RunKeepsBelow(tc, files, srcDir, buildDir, stacks, states, trace, k, l - 1);
      var prev := stacks[l - 1];
      assert |prev| > n;
      assert Step(tc, files, srcDir, buildDir, prev, states[l - 1]) == StepResult(stacks[l], states[l], trace[l - 1]);
      assert stacks[l][..n] == prev[..n];
    }
  }

  /**
   Retry after the dependency, however deep its own chain: once the stack
   comes back to the depth it had when call `k` raised a `NotCompiledError`,
   it is that very stack again, and the call made from it retries the unit
   that raised the error.
   */
  lemma RunRetries(tc: Toolchain, files: map<string, string>, srcDir: string, buildDir: string,
                   stacks: seq<seq<Job>>, states: seq<BuildState>, trace: seq<Event>, k: nat, m: nat)
    requires Run(tc, files, srcDir, buildDir, stacks, states, trace)
    requires k < m <= |trace| && trace[k].result.NotCompiled?
    requires |stacks[m]| <= |stacks[k]| && forall i :: k < i < m ==> |stacks[i]| > |stacks[k]|
    ensures stacks[m] == stacks[k]
    ensures m < |trace| ==> trace[m].job == trace[k].job
  {
    RunKeepsBelow(tc, files, srcDir, buildDir, stacks, states, trace, k, m);
    assert stacks[m] == stacks[m][..|stacks[k]|];
    assert Step(tc, files, srcDir, buildDir, stacks[k], states[k]) == StepResult(stacks[k + 1], states[k + 1], trace[k]);
    if m < |trace| {
      assert Step(tc, files, srcDir, buildDir, stacks[m], states[m]) == StepResult(stacks[m + 1], states[m + 1], trace[m]);
    }
  }

  datatype LoopResult = LoopResult(stack: seq<Job>, state: BuildState, trace: seq<Event>)

  /**
   The work-stack loop as a recursive function: `Step` from the top until the
   stack is empty or `fuel` turns are spent. A reference for `Drive` and for
   the second pass.
   */
  function Loop(tc: Toolchain, files: map<string, string>, srcDir: string, buildDir: string,
                stack: seq<Job>, st: BuildState, fuel: nat): (r: LoopResult)
    decreases fuel
    ensures |r.trace| <= fuel
    ensures |r.stack| > 0 ==> |r.trace| == fuel
    ensures |stack| > 0 && fuel > 0 ==> |r.trace| > 0 && r.trace[0].job == stack[|stack| - 1]
    ensures |stack| == 0 || fuel == 0 ==> r == LoopResult(stack, st, [])
  {
    if |stack| == 0 || fuel == 0 then LoopResult(stack, st, [])
    else
      var s := Step(tc, files, srcDir, buildDir, stack, st);
      var rest := Loop(tc, files, srcDir, buildDir, s.stack, s.state, fuel - 1);
      LoopResult(rest.stack, rest.state, [s.event] + rest.trace)
  }

  /**
   A run that has stopped (its stack emptied, or it used its `fuel` turns)
   is what `Loop` computes from where it started: from turn `k` with `f`
   turns left, `Loop` reaches the run's last stack and state with the calls
   `trace[k..]`.
   */
  lemma {:induction false} RunIsLoop(tc: Toolchain, files: map<string, string>, srcDir: string, buildDir: string,
                                     stacks: seq<seq<Job>>, states: seq<BuildState>, trace: seq<Event>, k: nat, f: nat)
    requires Run(tc, files, srcDir, buildDir, stacks, states, trace)
    requires k <= |trace| && |trace| - k <= f
    requires |stacks[|trace|]| == 0 || |trace| - k == f
    decreases |trace| - k
    ensures Loop(tc, files, srcDir, buildDir, stacks[k], states[k], f)
      == LoopResult(stacks[|trace|], states[|trace|], trace[k..])
  {
    if k < |trace| {
      assert Step(tc, files, srcDir, buildDir, stacks[k], states[k]) == StepResult(stacks[k + 1], states[k + 1], trace[k]);
      RunIsLoop(tc, files, srcDir, buildDir, stacks, states, trace, k + 1, f - 1);
      assert trace[k..] == [trace[k]] + trace[k + 1..];
    }
  }

  /** A run makes exactly the `compileFile` calls of its trace, each on the state the previous one left. */
  lemma RunCalls(tc: Toolchain, files: map<string, string>, srcDir: string, buildDir: string,
                 stacks: seq<seq<Job>>, states: seq<BuildState>, trace: seq<Event>, st0: BuildState, st: BuildState)
    requires Run(tc, files, srcDir, buildDir, stacks, states, trace)
    requires states[0] == st0 && states[|trace|] == st
    ensures Calls(tc, files, st0, states, trace, st)
  {
    forall k | 0 <= k < |trace|
      ensures CompileFile(tc, files, trace[k].job, states[k]) == Attempt(trace[k].result, states[k + 1])
    {
      var s := Step(tc, files, srcDir, buildDir, stacks[k], states[k]);
      assert s == StepResult(stacks[k + 1], states[k + 1], trace[k]);
    }
  }

  /** A compiled unit is found in a trace exactly when it is found in one of its two parts. */
  lemma DoneInAppend(t1: seq<Event>, t2: seq<Event>, p: string)
    ensures DoneIn(t1 + t2, p) <==> DoneIn(t1, p) || DoneIn(t2, p)
  {
    var t := t1 + t2;
    if DoneIn(t1, p) {
      var k :| 0 <= k < |t1| && t1[k].result.Done? && t1[k].job.source == p;
      assert t[k] == t1[k];
    }
    if DoneIn(t2, p) {
      var k :| 0 <= k < |t2| && t2[k].result.Done? && t2[k].job.source == p;
      assert t[|t1| + k] == t2[k];
    }
    if DoneIn(t, p) {
      var k :| 0 <= k < |t| && t[k].result.Done? && t[k].job.source == p;
      if k < |t1| {
        assert t[k] == t1[k];
      } else {
        assert t[k] == t2[k - |t1|];
      }
    }
  }

  lemma StepFramed(tc: Toolchain, files: map<string, string>, srcDir: string, buildDir: string,
                   stack: seq<Job>, st: BuildState, record0: Record, trace: seq<Event>)
    requires |stack| > 0 && Framed(record0, st.record, trace)
    ensures var s := Step(tc, files, srcDir, buildDir, stack, st);
      Framed(record0, s.state.record, trace + [s.event])
  {
    var s := Step(tc, files, srcDir, buildDir, stack, st);
    if s.event.result.Done? {
      assert [s.event][0] == s.event;
      assert DoneIn([s.event], s.event.job.source);
    }
    forall p | !DoneIn(trace + [s.event], p)
      ensures SameEntry(record0, s.state.record, p)
    {
      DoneInAppend(trace, [s.event], p);
    }
  }

  /** One turn writes the record only for a unit that parsed. */
  lemma StepKeepsParseErrors(tc: Toolchain, files: map<string, string>, srcDir: string, buildDir: string,
                             stack: seq<Job>, st: BuildState)
    requires |stack| > 0
    ensures ParseErrorsKept(tc, files, st.record, Step(tc, files, srcDir, buildDir, stack, st).state.record)
  {
  }

  lemma ParseErrorsKeptTrans(tc: Toolchain, files: map<string, string>, r0: Record, r1: Record, r2: Record)
    requires ParseErrorsKept(tc, files, r0, r1) && ParseErrorsKept(tc, files, r1, r2)
    ensures ParseErrorsKept(tc, files, r0, r2)
  {
  }

  lemma StepStale(tc: Toolchain, files: map<string, string>, srcDir: string, buildDir: string,
                  stack: seq<Job>, st: BuildState, trace: seq<Event>)
    requires |stack| > 0 && Stale(tc, files, st.record, trace)
    ensures var s := Step(tc, files, srcDir, buildDir, stack, st);
      Stale(tc, files, s.state.record, trace + [s.event])
  {
    var s := Step(tc, files, srcDir, buildDir, stack, st);
    StepKeepsParseErrors(tc, files, srcDir, buildDir, stack, st);
    assert [s.event][0] == s.event;
    StaleAppend(tc, files, st.record, s.state.record, trace, [s.event]);
  }

  /**
   The units `t1` stopped at parse errors stay stale while the record moves
   on by calls that keep the entries of such units.
   */
  lemma StaleAppend(tc: Toolchain, files: map<string, string>, r1: Record, r2: Record, t1: seq<Event>, t2: seq<Event>)
    requires Stale(tc, files, r1, t1) && ParseErrorsKept(tc, files, r1, r2) && Stale(tc, files, r2, t2)
    ensures Stale(tc, files, r2, t1 + t2)
  {
    var t := t1 + t2;
    forall k | 0 <= k < |t| && t[k].result.ParseFailed?
      ensures |tc.parse(ReadFile(files, t[k].job.source))| > 0 && !UpToDate(tc, files, r2, t[k].job.source)
    {
      if k < |t1| {
        assert t[k] == t1[k];
        assert SameEntry(r1, r2, t1[k].job.source);
      } else {
        assert t[k] == t2[k - |t1|];
      }
    }
  }

  /**
   The `while (!filesRecord.empty())` loop of `compileDirectory` for one unit:
   the stack starts as the unit's own job and the loop turns at most `fuel`
   times (the source has no guard against a dependency cycle). The trace is
   the `compileFile` calls the loop makes, each on the state the previous one
   left (`states`), from the work stack before it (`stacks`): every turn is
   one `Step`. The loop stops early only on an empty stack, keeps the
   stack's `Shape`, calls dependencies first and retries their dependents
   once their chain is done (`RunRetries`), and loses no progress; the
   record changes only at units it compiled, never at a unit with parse
   errors, and every unit stopped at parse errors stays stale. A unit already up to date is skipped in one call
   that changes nothing.
   */
  method Drive(tc: Toolchain, files: map<string, string>, srcDir: string, buildDir: string,
               seed: Job, st: BuildState, fuel: nat)
    returns (stack: seq<Job>, stacks: seq<seq<Job>>, states: seq<BuildState>, state: BuildState, trace: seq<Event>)
    ensures |trace| <= fuel
    ensures Run(tc, files, srcDir, buildDir, stacks, states, trace)
    ensures stacks[0] == [seed] && stacks[|trace|] == stack
    ensures |stack| > 0 ==> |trace| == fuel
    ensures Calls(tc, files, st, states, trace, state)
    ensures Shape(srcDir, buildDir, seed, stack, trace)
    ensures Ordered(srcDir, buildDir, trace) && Retried(trace)
    ensures Fresh(tc, files, st.record, state.record, trace) && Stale(tc, files, state.record, trace)
    ensures Framed(st.record, state.record, trace) && ParseErrorsKept(tc, files, st.record, state.record)
    ensures fuel > 0 && UpToDate(tc, files, st.record, seed.source) ==>
      stack == [] && state == st && trace == [Event(seed, Skipped)]
  {
    stack, stacks, states, state, trace := [seed], [[seed]], [st], st, [];
    while |stack| > 0 && |trace| < fuel
      invariant |trace| <= fuel
      invariant Driving(tc, files, srcDir, buildDir, seed, st, stacks, states, trace, stack, state)
      invariant UpToDate(tc, files, st.record, seed.source) ==>
        state == st && (|trace| == 0 || (stack == [] && trace == [Event(seed, Skipped)]))
      decreases fuel - |trace|
    {
      StepTurn(tc, files, srcDir, buildDir, seed, st, stacks, states, trace, stack, state);
      var s := Step(tc, files, srcDir, buildDir, stack, state);
      stack, stacks, states, state, trace := s.stack, stacks + [s.stack], states + [s.state], s.state, trace + [s.event];
    }
    RunCalls(tc, files, srcDir, buildDir, stacks, states, trace, st, state);
  }

  /**
   The invariant of the loop of `Drive` after `trace`: the run so far from
   `[seed]` and `st0` to `stack` and `st`, and every property of the trace.
   */
  ghost predicate Driving(tc: Toolchain, files: map<string, string>, srcDir: string, buildDir: string, seed: Job,
                    st0: BuildState, stacks: seq<seq<Job>>, states: seq<BuildState>, trace: seq<Event>,
                    stack: seq<Job>, st: BuildState) {
    && Run(tc, files, srcDir, buildDir, stacks, states, trace)
    && stacks[0] == [seed] && stacks[|trace|] == stack && states[0] == st0 && states[|trace|] == st
    && Shape(srcDir, buildDir, seed, stack, trace)
    && Ordered(srcDir, buildDir, trace) && Retried(trace)
    && Fresh(tc, files, st0.record, st.record, trace) && Stale(tc, files, st.record, trace)
    && Framed(st0.record, st.record, trace) && ParseErrorsKept(tc, files, st0.record, st.record)
  }

  /** One turn of the loop keeps every invariant of `Drive`. */
  lemma StepTurn(tc: Toolchain, files: map<string, string>, srcDir: string, buildDir: string, seed: Job,
                 st0: BuildState, stacks: seq<seq<Job>>, states: seq<BuildState>, trace: seq<Event>,
                 stack: seq<Job>, st: BuildState)
    requires |stack| > 0 && Driving(tc, files, srcDir, buildDir, seed, st0, stacks, states, trace, stack, st)
    ensures var s := Step(tc, files, srcDir, buildDir, stack, st);
      Driving(tc, files, srcDir, buildDir, seed, st0, stacks + [s.stack], states + [s.state], trace + [s.event], s.stack, s.state)
  {
    var s := Step(tc, files, srcDir, buildDir, stack, st);
    StepRun(tc, files, srcDir, buildDir, stacks, states, trace);
    StepShape(tc, files, srcDir, buildDir, seed, stack, st, trace);
    StepOrdered(tc, files, srcDir, buildDir, seed, stack, st, trace);
    StepRetried(tc, files, srcDir, buildDir, seed, stack, st, trace);
    StepFresh(tc, files, srcDir, buildDir, stack, st, st0.record, trace);
    StepStale(tc, files, srcDir, buildDir, stack, st, trace);
    StepFramed(tc, files, srcDir, buildDir, stack, st, st0.record, trace);
    StepKeepsParseErrors(tc, files, srcDir, buildDir, stack, st);
    ParseErrorsKeptTrans(tc, files, st0.record, st.record, s.state.record);
  }

  // ---------------------------------------------------------------------------
  // The directory passes

  /** The entries of a walk of `srcDir`: distinct paths, each inside `srcDir`. */
  predicate Walk(srcDir: string, entries: seq<Entry>) {
    && (forall i :: 0 <= i < |entries| ==> Below(srcDir, entries[i].path))
    && (forall i, j :: 0 <= i < j < |entries| ==> entries[i].path != entries[j].path)
  }

  /** The side-table path of a unit path. */
  function MapOf(srcDir: string, buildDir: string, path: string): string {
    IrGcMapPath(buildDir, Relative(path, srcDir))
  }

  /** Two distinct units of a walk have distinct side tables. */
  lemma MapOfDistinct(srcDir: string, buildDir: string, a: Entry, b: Entry)
    requires IsUnit(a) && IsUnit(b) && a.path != b.path
    requires Below(srcDir, a.path) && Below(srcDir, b.path)
    ensures MapOf(srcDir, buildDir, a.path) != MapOf(srcDir, buildDir, b.path)
  {
    var prefix := srcDir + "/";
    var ra := Relative(a.path, srcDir);
    var rb := Relative(b.path, srcDir);
    assert a.path == prefix + ra && b.path == prefix + rb;
    FileNameBelow(prefix, ra);
    FileNameBelow(prefix, rb);
    if MapOf(srcDir, buildDir, a.path) == MapOf(srcDir, buildDir, b.path) {
      UnitExtension(ra);
      UnitExtension(rb);
      ArtifactInjective(buildDir + "/ir_gc_map/", ".json", ra, rb);
    }
  }

  /** No unit among the first `n` entries has its side table at `k`. */
  predicate Untouched(srcDir: string, buildDir: string, entries: seq<Entry>, n: int, k: string) {
    forall j :: 0 <= j < n && j < |entries| && IsUnit(entries[j]) ==> MapOf(srcDir, buildDir, entries[j].path) != k
  }

  /**
   After `setIrGcMap` on the units among the first `n` entries: each of their
   side tables exists and is marked up to date exactly when its unit is up to
   date in `record0`.
   */
  predicate Marked(tc: Toolchain, files: map<string, string>, srcDir: string, buildDir: string,
                   entries: seq<Entry>, n: int, record0: Record, tables: map<string, SideTable>) {
    forall j :: 0 <= j < n && j < |entries| && IsUnit(entries[j]) ==>
      MapOf(srcDir, buildDir, entries[j].path) in tables
      && (tables[MapOf(srcDir, buildDir, entries[j].path)].uptodate <==> UpToDate(tc, files, record0, entries[j].path))
  }

  /** The side table `setIrGcMap` reads at `k`: the existing one, or an empty one not up to date. */
  function Initial(tables: map<string, SideTable>, k: string): SideTable {
    if k in tables then tables[k] else SideTable(false, map[], map[])
  }

  /** Tables of no unit among the first `n` entries are as in `tables0`. */
  predicate Kept(srcDir: string, buildDir: string, entries: seq<Entry>, n: int,
                 tables0: map<string, SideTable>, tables: map<string, SideTable>) {
    forall k :: k in tables0 && Untouched(srcDir, buildDir, entries, n, k) ==> k in tables && tables[k] == tables0[k]
  }

  /** Every side table missing from `tables0` belongs to a unit among the first `n` entries. */
  predicate OnlyUnits(srcDir: string, buildDir: string, entries: seq<Entry>, n: int,
                      tables0: map<string, SideTable>, tables: map<string, SideTable>) {
    forall k :: k in tables && k !in tables0 ==>
      exists j :: 0 <= j < n && j < |entries| && IsUnit(entries[j]) && MapOf(srcDir, buildDir, entries[j].path) == k
  }

  /** One turn of the refresh pass: `setIrGcMap` on entry `i` when it is a unit. */
  function RefreshOne(tc: Toolchain, files: map<string, string>, srcDir: string, buildDir: string,
                      e: Entry, st: BuildState): BuildState {
    if IsUnit(e) then SetIrGcMap(tc, files, e.path, MapOf(srcDir, buildDir, e.path), st) else st
  }

  lemma RefreshMarks(tc: Toolchain, files: map<string, string>, srcDir: string, buildDir: string,
                     entries: seq<Entry>, i: nat, record0: Record, st: BuildState)
    requires Walk(srcDir, entries) && i < |entries| && st.record == record0
    requires Marked(tc, files, srcDir, buildDir, entries, i, record0, st.tables)
    ensures Marked(tc, files, srcDir, buildDir, entries, i + 1, record0,
                   RefreshOne(tc, files, srcDir, buildDir, entries[i], st).tables)
  {
    var e := entries[i];
    if IsUnit(e) {
      forall j | 0 <= j < i && IsUnit(entries[j])
        ensures MapOf(srcDir, buildDir, entries[j].path) != MapOf(srcDir, buildDir, e.path)
      {
        MapOfDistinct(srcDir, buildDir, entries[j], e);
      }
    }
  }

  lemma RefreshKeeps(tc: Toolchain, files: map<string, string>, srcDir: string, buildDir: string,
                     entries: seq<Entry>, i: nat, tables0: map<string, SideTable>, st: BuildState)
    requires i < |entries|
    requires Kept(srcDir, buildDir, entries, i, tables0, st.tables)
    ensures Kept(srcDir, buildDir, entries, i + 1, tables0,
                 RefreshOne(tc, files, srcDir, buildDir, entries[i], st).tables)
  {
  }

  /** One refresh turn creates a side table only for its own entry, and only when that is a unit. */
  lemma RefreshOnlyUnits(tc: Toolchain, files: map<string, string>, srcDir: string, buildDir: string,
                         entries: seq<Entry>, i: nat, tables0: map<string, SideTable>, st: BuildState)
    requires i < |entries| && OnlyUnits(srcDir, buildDir, entries, i, tables0, st.tables)
    ensures OnlyUnits(srcDir, buildDir, entries, i + 1, tables0,
                      RefreshOne(tc, files, srcDir, buildDir, entries[i], st).tables)
  {
    var next := RefreshOne(tc, files, srcDir, buildDir, entries[i], st).tables;
    forall k | k in next && k !in tables0
      ensures exists j :: 0 <= j < i + 1 && j < |entries| && IsUnit(entries[j]) && MapOf(srcDir, buildDir, entries[j].path) == k
    {
      if k in st.tables {
        var j :| 0 <= j < i && j < |entries| && IsUnit(entries[j]) && MapOf(srcDir, buildDir, entries[j].path) == k;
        assert 0 <= j < i + 1;
      } else {
        assert IsUnit(entries[i]) && MapOf(srcDir, buildDir, entries[i].path) == k;
      }
    }
  }

  /**
   The refresh pass changes only `uptodate` flags: every table of `tables0` is
   still there, and every table is the one `setIrGcMap` started from (the
   table of `tables0`, or an empty one) with at most its flag changed.
   */
  predicate FlagsOnly(tables0: map<string, SideTable>, tables: map<string, SideTable>) {
    && (forall k :: k in tables0 ==> k in tables)
    && (forall k :: k in tables ==> tables[k] == Initial(tables0, k).(uptodate := tables[k].uptodate))
  }

  /** `setIrGcMap` changes only a flag, or adds an empty table. */
  lemma SetIrGcMapFlagsOnly(tc: Toolchain, files: map<string, string>, path: string, mapPath: string,
                            st: BuildState, tables0: map<string, SideTable>)
    requires FlagsOnly(tables0, st.tables)
    ensures FlagsOnly(tables0, SetIrGcMap(tc, files, path, mapPath, st).tables)
  {
    var next := SetIrGcMap(tc, files, path, mapPath, st).tables;
    assert mapPath !in st.tables ==> mapPath !in tables0;
    forall k | k in next
      ensures next[k] == Initial(tables0, k).(uptodate := next[k].uptodate)
    {
      if k != mapPath {
        assert next[k] == st.tables[k];
      }
    }
  }

  /**
   The first pass of `compileDirectory`: `setIrGcMap` on every unit of the
   walk. Afterwards each unit's side table exists and is marked up to date
   exactly when the unit is; tables of no unit, and the record, are left
   alone, and every new table is a unit's. No table changes but in its
   `uptodate` flag, and a new one starts empty.
   */
  method RefreshTables(tc: Toolchain, files: map<string, string>, srcDir: string, buildDir: string,
                       entries: seq<Entry>, st: BuildState) returns (state: BuildState)
    requires Walk(srcDir, entries)
    ensures state.record == st.record && state.compiled == st.compiled
    ensures Marked(tc, files, srcDir, buildDir, entries, |entries|, st.record, state.tables)
    ensures Kept(srcDir, buildDir, entries, |entries|, st.tables, state.tables)
    ensures OnlyUnits(srcDir, buildDir, entries, |entries|, st.tables, state.tables)
    ensures FlagsOnly(st.tables, state.tables)
  {
    state := st;
    var i := 0;
    while i < |entries|
      invariant 0 <= i <= |entries|
      invariant state.record == st.record && state.compiled == st.compiled
      invariant Marked(tc, files, srcDir, buildDir, entries, i, st.record, state.tables)
      invariant Kept(srcDir, buildDir, entries, i, st.tables, state.tables)
      invariant OnlyUnits(srcDir, buildDir, entries, i, st.tables, state.tables)
      invariant FlagsOnly(st.tables, state.tables)
    {
      RefreshMarks(tc, files, srcDir, buildDir, entries, i, st.record, state);
      RefreshKeeps(tc, files, srcDir, buildDir, entries, i, st.tables, state);
      RefreshOnlyUnits(tc, files, srcDir, buildDir, entries, i, st.tables, state);
      if IsUnit(entries[i]) {
        SetIrGcMapFlagsOnly(tc, files, entries[i].path, MapOf(srcDir, buildDir, entries[i].path), state, st.tables);
      }
      state := RefreshOne(tc, files, srcDir, buildDir, entries[i], state);
      i := i + 1;
    }
  }

  /** A job was taken off the stack by a normal return somewhere in the trace. */
  predicate Settled(trace: seq<Event>, job: Job) {
    exists k :: 0 <= k < |trace| && trace[k].job == job && !trace[k].result.NotCompiled?
  }

  /** Every unit among the first `n` entries was settled. */
  predicate AllSettled(srcDir: string, buildDir: string, entries: seq<Entry>, n: int, trace: seq<Event>) {
    forall j :: 0 <= j < n && j < |entries| && IsUnit(entries[j]) ==> Settled(trace, JobFor(srcDir, buildDir, entries[j].path))
  }

  /** Settling survives further events. */
  lemma SettledAppend(srcDir: string, buildDir: string, entries: seq<Entry>, n: int, trace: seq<Event>, more: seq<Event>)
    requires AllSettled(srcDir, buildDir, entries, n, trace)
    ensures AllSettled(srcDir, buildDir, entries, n, trace + more)
  {
    forall j | 0 <= j < n && j < |entries| && IsUnit(entries[j])
      ensures Settled(trace + more, JobFor(srcDir, buildDir, entries[j].path))
    {
      var job := JobFor(srcDir, buildDir, entries[j].path);
      var k :| 0 <= k < |trace| && trace[k].job == job && !trace[k].result.NotCompiled?;
      assert (trace + more)[k] == trace[k];
    }
  }

  /** The first `n + 1` entries are settled once the first `n` are and entry `n` is, if a unit. */
  lemma AllSettledStep(srcDir: string, buildDir: string, entries: seq<Entry>, n: nat, trace: seq<Event>)
    requires n < |entries| && AllSettled(srcDir, buildDir, entries, n, trace)
    requires IsUnit(entries[n]) ==> Settled(trace, JobFor(srcDir, buildDir, entries[n].path))
    ensures AllSettled(srcDir, buildDir, entries, n + 1, trace)
  {
  }

  /** A job settled by later events stays settled with earlier events in front. */
  lemma SettledAfter(trace: seq<Event>, more: seq<Event>, job: Job)
    requires Settled(more, job)
    ensures Settled(trace + more, job)
  {
    var k :| 0 <= k < |more| && more[k].job == job && !more[k].result.NotCompiled?;
    assert (trace + more)[|trace| + k] == more[k];
  }

  /** A run whose stack emptied settled its seed. */
  lemma SettledBySeed(srcDir: string, buildDir: string, seed: Job, trace: seq<Event>, events: seq<Event>)
    requires Shape(srcDir, buildDir, seed, [], events)
    ensures Settled(trace + events, seed)
  {
    var next := trace + events;
    assert next[|next| - 1] == events[|events| - 1];
  }

  /** Progress kept by two runs in a row is kept by both together. */
  lemma FreshAppend(tc: Toolchain, files: map<string, string>, r0: Record, r1: Record, r2: Record,
                    t1: seq<Event>, t2: seq<Event>)
    requires Fresh(tc, files, r0, r1, t1) && Fresh(tc, files, r1, r2, t2)
    ensures Fresh(tc, files, r0, r2, t1 + t2)
  {
    var t := t1 + t2;
    forall k | 0 <= k < |t| && (t[k].result.Done? || t[k].result.Skipped?)
      ensures UpToDate(tc, files, r2, t[k].job.source)
    {
      if k < |t1| {
        assert t[k] == t1[k];
      } else {
        assert t[k] == t2[k - |t1|];
      }
    }
  }

  /** Two runs of calls, the second starting where the first stopped, make one run. */
  lemma CallsAppend(tc: Toolchain, files: map<string, string>, s0: BuildState, states1: seq<BuildState>, t1: seq<Event>,
                    s1: BuildState, states2: seq<BuildState>, t2: seq<Event>, s2: BuildState)
    requires Calls(tc, files, s0, states1, t1, s1) && Calls(tc, files, s1, states2, t2, s2)
    ensures Calls(tc, files, s0, states1 + states2[1..], t1 + t2, s2)
  {
    var states := states1 + states2[1..];
    var t := t1 + t2;
    forall k | 0 <= k < |t|
      ensures CompileFile(tc, files, t[k].job, states[k]) == Attempt(t[k].result, states[k + 1])
    {
      if k < |t1| {
        assert t[k] == t1[k] && states[k] == states1[k] && states[k + 1] == states1[k + 1];
      } else {
        var j := k - |t1|;
        assert t[k] == t2[j];
        if j == 0 {
          assert states[k] == states1[|t1|] == states2[0];
        } else {
          assert states[k] == states2[1..][j - 1] == states2[j];
        }
        assert states[k + 1] == states2[1..][j] == states2[j + 1];
      }
    }
    if |t2| > 0 {
      assert states[|t|] == states2[1..][|t2| - 1] == states2[|t2|];
    } else {
      assert states[|t|] == states1[|t1|];
    }
    assert states[0] == states1[0];
  }

  /** The record changes of two runs together are at units one of them compiled. */
  lemma FramedAppend(r0: Record, r1: Record, r2: Record, t1: seq<Event>, t2: seq<Event>)
    requires Framed(r0, r1, t1) && Framed(r1, r2, t2)
    ensures Framed(r0, r2, t1 + t2)
  {
    forall p | !DoneIn(t1 + t2, p)
      ensures SameEntry(r0, r2, p)
    {
      DoneInAppend(t1, t2, p);
    }
  }

  /** Every unit of the walk is up to date in `record`. */
  predicate AllUpToDate(tc: Toolchain, files: map<string, string>, record: Record, entries: seq<Entry>) {
    forall i :: 0 <= i < |entries| && IsUnit(entries[i]) ==> UpToDate(tc, files, record, entries[i].path)
  }

  /** Every call in the trace skipped its unit. */
  predicate AllSkipped(trace: seq<Event>) {
    forall k :: 0 <= k < |trace| ==> trace[k].result.Skipped?
  }

  lemma SkippedAppend(trace: seq<Event>, more: seq<Event>)
    requires AllSkipped(trace) && AllSkipped(more)
    ensures AllSkipped(trace + more)
  {
    var t := trace + more;
    forall k | 0 <= k < |t|
      ensures t[k].result.Skipped?
    {
      if k < |trace| {
        assert t[k] == trace[k];
      } else {
        assert t[k] == more[k - |trace|];
      }
    }
  }

  /**
   One iteration of the second pass of `compileDirectory`: nothing for an
   entry that is not a unit; for a unit, the work-stack loop seeded with its
   job. `settled` says the stack emptied, so the unit returned normally.
   */
  method CompileEntry(tc: Toolchain, files: map<string, string>, srcDir: string, buildDir: string,
                      e: Entry, st: BuildState, fuel: nat)
    returns (stacks: seq<seq<Job>>, states: seq<BuildState>, state: BuildState, events: seq<Event>, settled: bool)
    ensures IsUnit(e) ==>
      && Run(tc, files, srcDir, buildDir, stacks, states, events)
      && stacks[0] == [JobFor(srcDir, buildDir, e.path)]
      && |events| <= fuel && (settled <==> |stacks[|events|]| == 0) && (!settled ==> |events| == fuel)
    ensures !IsUnit(e) ==> state == st && events == [] && settled
    ensures IsUnit(e) && settled ==> Settled(events, JobFor(srcDir, buildDir, e.path))
    ensures Calls(tc, files, st, states, events, state)
    ensures Fresh(tc, files, st.record, state.record, events) && Stale(tc, files, state.record, events)
    ensures Framed(st.record, state.record, events) && ParseErrorsKept(tc, files, st.record, state.record)
    ensures fuel > 0 && IsUnit(e) && UpToDate(tc, files, st.record, e.path) ==>
      state == st && settled && events == [Event(JobFor(srcDir, buildDir, e.path), Skipped)]
  {
    if IsUnit(e) {
      var job := JobFor(srcDir, buildDir, e.path);
      var stack;
      stack, stacks, states, state, events := Drive(tc, files, srcDir, buildDir, job, st, fuel);
      settled := |stack| == 0;
      if settled {
        SettledBySeed(srcDir, buildDir, job, [], events);
        assert [] + events == events;
      }
    } else {
      stacks, states, state, events, settled := [[]], [st], st, [], true;
    }
  }

  /**
   What `CompileEntry` returns is the entry's loop: for a unit, the run it
   drove from the unit's job, which stops only on an empty stack or out of
   fuel; for any other entry, nothing.
   */
  lemma EntryIsLoop(tc: Toolchain, files: map<string, string>, srcDir: string, buildDir: string,
                    e: Entry, st: BuildState, fuel: nat, stacks: seq<seq<Job>>, states: seq<BuildState>,
                    state: BuildState, events: seq<Event>, settled: bool)
    requires IsUnit(e) ==>
      && Run(tc, files, srcDir, buildDir, stacks, states, events)
      && stacks[0] == [JobFor(srcDir, buildDir, e.path)]
      && |events| <= fuel && (settled <==> |stacks[|events|]| == 0) && (!settled ==> |events| == fuel)
    requires !IsUnit(e) ==> state == st && events == [] && settled
    requires Calls(tc, files, st, states, events, state)
    ensures var r := EntryLoop(tc, files, srcDir, buildDir, e, st, fuel);
      state == r.state && events == r.trace && (settled <==> |r.stack| == 0)
  {
    if IsUnit(e) {
      DriveIsLoop(tc, files, srcDir, buildDir, e, st, fuel, stacks, states, events);
    }
  }

  /** A stopped run seeded with a unit's job is that entry's loop. */
  lemma DriveIsLoop(tc: Toolchain, files: map<string, string>, srcDir: string, buildDir: string,
                    e: Entry, st: BuildState, fuel: nat, stacks: seq<seq<Job>>, states: seq<BuildState>, events: seq<Event>)
    requires IsUnit(e) && Run(tc, files, srcDir, buildDir, stacks, states, events)
    requires stacks[0] == [JobFor(srcDir, buildDir, e.path)] && states[0] == st
    requires |events| <= fuel && (|stacks[|events|]| == 0 || |events| == fuel)
    ensures EntryLoop(tc, files, srcDir, buildDir, e, st, fuel) == LoopResult(stacks[|events|], states[|events|], events)
  {
    RunIsLoop(tc, files, srcDir, buildDir, stacks, states, events, 0, fuel);
    assert events[0..] == events;
  }

  /** What one entry of the second pass does: the loop seeded with a unit's job, or nothing. */
  function EntryLoop(tc: Toolchain, files: map<string, string>, srcDir: string, buildDir: string,
                     e: Entry, st: BuildState, fuel: nat): LoopResult {
    if IsUnit(e) then Loop(tc, files, srcDir, buildDir, [JobFor(srcDir, buildDir, e.path)], st, fuel)
    else LoopResult([], st, [])
  }

  datatype PassResult = PassResult(state: BuildState, trace: seq<Event>, complete: bool)

  /**
   The second pass as a fold over the walk: each entry's loop starts from the
   state the previous one left, the trace is their calls in walk order, and
   the pass is complete exactly when every loop emptied its stack.
   */
  function Pass(tc: Toolchain, files: map<string, string>, srcDir: string, buildDir: string,
                entries: seq<Entry>, st: BuildState, fuel: nat): PassResult
    decreases |entries|
  {
    if |entries| == 0 then PassResult(st, [], true)
    else
      var r := EntryLoop(tc, files, srcDir, buildDir, entries[0], st, fuel);
      var rest := Pass(tc, files, srcDir, buildDir, entries[1..], r.state, fuel);
      PassResult(rest.state, r.trace + rest.trace, |r.stack| == 0 && rest.complete)
  }

  /** The fold from entry `i` on is entry `i`'s loop followed by the fold from `i + 1`. */
  lemma PassStep(tc: Toolchain, files: map<string, string>, srcDir: string, buildDir: string,
                 entries: seq<Entry>, i: nat, st: BuildState, fuel: nat)
    requires i < |entries|
    ensures var r := EntryLoop(tc, files, srcDir, buildDir, entries[i], st, fuel);
      var rest := Pass(tc, files, srcDir, buildDir, entries[i + 1..], r.state, fuel);
      Pass(tc, files, srcDir, buildDir, entries[i..], st, fuel)
        == PassResult(rest.state, r.trace + rest.trace, |r.stack| == 0 && rest.complete)
  {
    assert entries[i..][0] == entries[i] && entries[i..][1..] == entries[i + 1..];
  }

  lemma PassFirst(tc: Toolchain, files: map<string, string>, srcDir: string, buildDir: string,
                  entries: seq<Entry>, st: BuildState, fuel: nat)
    requires 0 < |entries|
    ensures var r := EntryLoop(tc, files, srcDir, buildDir, entries[0], st, fuel);
      Pass(tc, files, srcDir, buildDir, entries, st, fuel).trace
        == r.trace + Pass(tc, files, srcDir, buildDir, entries[1..], r.state, fuel).trace
  {
  }

  /** A call of the trace is on `job`. */
  predicate Visited(trace: seq<Event>, job: Job) {
    exists k :: 0 <= k < |trace| && trace[k].job == job
  }

  /**
   With at least one turn per loop, the second pass calls `compileFile` on
   every unit of the walk: no unit, stale or not, is passed over.
   */
  lemma {:induction false} PassVisits(tc: Toolchain, files: map<string, string>, srcDir: string, buildDir: string,
                                      entries: seq<Entry>, st: BuildState, fuel: nat, i: nat)
    requires fuel > 0 && i < |entries| && IsUnit(entries[i])
    decreases i
    ensures Visited(Pass(tc, files, srcDir, buildDir, entries, st, fuel).trace, JobFor(srcDir, buildDir, entries[i].path))
  {
    if i == 0 {
      PassVisitsFirst(tc, files, srcDir, buildDir, entries, st, fuel);
    } else {
      var after := EntryLoop(tc, files, srcDir, buildDir, entries[0], st, fuel).state;
      assert entries[1..][i - 1] == entries[i];
      PassVisits(tc, files, srcDir, buildDir, entries[1..], after, fuel, i - 1);
      PassVisitsLater(tc, files, srcDir, buildDir, entries, st, fuel, JobFor(srcDir, buildDir, entries[i].path));
    }
  }

  lemma PassVisitsFirst(tc: Toolchain, files: map<string, string>, srcDir: string, buildDir: string,
                        entries: seq<Entry>, st: BuildState, fuel: nat)
    requires fuel > 0 && 0 < |entries| && IsUnit(entries[0])
    ensures Visited(Pass(tc, files, srcDir, buildDir, entries, st, fuel).trace, JobFor(srcDir, buildDir, entries[0].path))
  {
    var r := EntryLoop(tc, files, srcDir, buildDir, entries[0], st, fuel);
    PassFirst(tc, files, srcDir, buildDir, entries, st, fuel);
    EntryLoopVisits(tc, files, srcDir, buildDir, entries[0], st, fuel);
    VisitedAppend(r.trace, Pass(tc, files, srcDir, buildDir, entries[1..], r.state, fuel).trace, JobFor(srcDir, buildDir, entries[0].path));
  }

  lemma PassVisitsLater(tc: Toolchain, files: map<string, string>, srcDir: string, buildDir: string,
                        entries: seq<Entry>, st: BuildState, fuel: nat, job: Job)
    requires 0 < |entries|
    ensures var r := EntryLoop(tc, files, srcDir, buildDir, entries[0], st, fuel);
      (Visited(Pass(tc, files, srcDir, buildDir, entries[1..], r.state, fuel).trace, job)
       ==> Visited(Pass(tc, files, srcDir, buildDir, entries, st, fuel).trace, job))
  {
    var r := EntryLoop(tc, files, srcDir, buildDir, entries[0], st, fuel);
    PassFirst(tc, files, srcDir, buildDir, entries, st, fuel);
    VisitedAppend(r.trace, Pass(tc, files, srcDir, buildDir, entries[1..], r.state, fuel).trace, job);
  }

  /** A unit's loop with at least one turn starts with the unit's own job. */
  lemma EntryLoopVisits(tc: Toolchain, files: map<string, string>, srcDir: string, buildDir: string,
                        e: Entry, st: BuildState, fuel: nat)
    requires fuel > 0 && IsUnit(e)
    ensures Visited(EntryLoop(tc, files, srcDir, buildDir, e, st, fuel).trace, JobFor(srcDir, buildDir, e.path))
  {
    assert EntryLoop(tc, files, srcDir, buildDir, e, st, fuel).trace[0].job == JobFor(srcDir, buildDir, e.path);
  }

  lemma VisitedAppend(a: seq<Event>, b: seq<Event>, job: Job)
    ensures Visited(a, job) || Visited(b, job) ==> Visited(a + b, job)
  {
    if Visited(a, job) {
      var k :| 0 <= k < |a| && a[k].job == job;
      assert (a + b)[k] == a[k];
    } else if Visited(b, job) {
      var k :| 0 <= k < |b| && b[k].job == job;
      assert (a + b)[|a| + k] == b[k];
    }
  }

  /** The settled units of the second pass grow by one entry per iteration. */
  lemma PassSettled(srcDir: string, buildDir: string, entries: seq<Entry>, i: nat,
                    trace: seq<Event>, complete: bool, events: seq<Event>, settled: bool)
    requires i < |entries|
    requires complete ==> AllSettled(srcDir, buildDir, entries, i, trace)
    requires IsUnit(entries[i]) && settled ==> Settled(events, JobFor(srcDir, buildDir, entries[i].path))
    ensures complete && settled ==> AllSettled(srcDir, buildDir, entries, i + 1, trace + events)
  {
    if complete && settled {
      SettledAppend(srcDir, buildDir, entries, i, trace, events);
      if IsUnit(entries[i]) {
        SettledAfter(trace, events, JobFor(srcDir, buildDir, entries[i].path));
      }
      AllSettledStep(srcDir, buildDir, entries, i, trace + events);
    }
  }

  /** On a tree that is up to date, each iteration of the second pass skips and changes nothing. */
  lemma PassSkipped(tc: Toolchain, files: map<string, string>, srcDir: string, buildDir: string,
                    entries: seq<Entry>, i: nat, fuel: nat, st: BuildState, state: BuildState,
                    trace: seq<Event>, complete: bool, after: BuildState, events: seq<Event>, settled: bool)
    requires i < |entries|
    requires fuel > 0 && AllUpToDate(tc, files, st.record, entries) ==> state == st && complete && AllSkipped(trace)
    requires !IsUnit(entries[i]) ==> after == state && events == [] && settled
    requires fuel > 0 && IsUnit(entries[i]) && UpToDate(tc, files, state.record, entries[i].path) ==>
      after == state && settled && AllSkipped(events)
    ensures fuel > 0 && AllUpToDate(tc, files, st.record, entries) ==>
      after == st && complete && settled && AllSkipped(trace + events)
  {
    if fuel > 0 && AllUpToDate(tc, files, st.record, entries) {
      if IsUnit(entries[i]) {
        assert UpToDate(tc, files, state.record, entries[i].path);
      }
      SkippedAppend(trace, events);
    }
  }

  /**
   The second pass of `compileDirectory`: every unit of the walk in order,
   seeded alone on the work stack and driven for at most `fuel` turns. The
   trace is the `compileFile` calls of all the loops, one after another.
   `complete` says every unit's stack emptied; then every unit was settled
   by a normal return. No progress is lost, the record changes only at
   compiled units, and units stopped at parse errors stay stale. When every
   unit is already up to date, every call skips and nothing changes.
   */
  method CompileUnits(tc: Toolchain, files: map<string, string>, srcDir: string, buildDir: string,
                      entries: seq<Entry>, st: BuildState, fuel: nat)
    returns (states: seq<BuildState>, state: BuildState, trace: seq<Event>, complete: bool)
    ensures Pass(tc, files, srcDir, buildDir, entries, st, fuel) == PassResult(state, trace, complete)
    ensures complete ==> AllSettled(srcDir, buildDir, entries, |entries|, trace)
    ensures Calls(tc, files, st, states, trace, state)
    ensures Fresh(tc, files, st.record, state.record, trace) && Stale(tc, files, state.record, trace)
    ensures Framed(st.record, state.record, trace) && ParseErrorsKept(tc, files, st.record, state.record)
    ensures fuel > 0 && AllUpToDate(tc, files, st.record, entries) ==> state == st && complete && AllSkipped(trace)
  {
    states, state, trace, complete := [st], st, [], true;
    var i := 0;
    PassStart(tc, files, srcDir, buildDir, entries, st, fuel);
    while i < |entries|
      invariant 0 <= i <= |entries|
      invariant Passing(tc, files, srcDir, buildDir, entries, st, fuel, i, states, state, trace, complete)
    {
      var stacks, more, after, events, settled := CompileEntry(tc, files, srcDir, buildDir, entries[i], state, fuel);
      PassTurn(tc, files, srcDir, buildDir, entries, st, fuel, i, states, state, trace, complete, stacks, more, after, events, settled);
      states, state, trace, complete := states + more[1..], after, trace + events, complete && settled;
      i := i + 1;
    }
  }

  /** The invariant of the second pass after the entries before `i`: the fold so far and every property of the trace. */
  ghost predicate Passing(tc: Toolchain, files: map<string, string>, srcDir: string, buildDir: string,
                          entries: seq<Entry>, st: BuildState, fuel: nat, i: nat,
                          states: seq<BuildState>, state: BuildState, trace: seq<Event>, complete: bool) {
    && PassFrom(tc, files, srcDir, buildDir, entries, st, fuel, i, state, trace, complete)
    && (complete ==> AllSettled(srcDir, buildDir, entries, i, trace))
    && Calls(tc, files, st, states, trace, state)
    && Fresh(tc, files, st.record, state.record, trace) && Stale(tc, files, state.record, trace)
    && Framed(st.record, state.record, trace) && ParseErrorsKept(tc, files, st.record, state.record)
    && (fuel > 0 && AllUpToDate(tc, files, st.record, entries) ==> state == st && complete && AllSkipped(trace))
  }

  /** One iteration of the second pass, with what `CompileEntry` promises about entry `i`, keeps `Passing`. */
  lemma PassTurn(tc: Toolchain, files: map<string, string>, srcDir: string, buildDir: string,
                 entries: seq<Entry>, st: BuildState, fuel: nat, i: nat,
                 states: seq<BuildState>, state: BuildState, trace: seq<Event>, complete: bool,
                 stacks: seq<seq<Job>>, more: seq<BuildState>, after: BuildState, events: seq<Event>, settled: bool)
    requires i < |entries| && Passing(tc, files, srcDir, buildDir, entries, st, fuel, i, states, state, trace, complete)
    requires IsUnit(entries[i]) ==>
      && Run(tc, files, srcDir, buildDir, stacks, more, events)
      && stacks[0] == [JobFor(srcDir, buildDir, entries[i].path)]
      && |events| <= fuel && (settled <==> |stacks[|events|]| == 0) && (!settled ==> |events| == fuel)
    requires !IsUnit(entries[i]) ==> after == state && events == [] && settled
    requires IsUnit(entries[i]) && settled ==> Settled(events, JobFor(srcDir, buildDir, entries[i].path))
    requires Calls(tc, files, state, more, events, after)
    requires Fresh(tc, files, state.record, after.record, events) && Stale(tc, files, after.record, events)
    requires Framed(state.record, after.record, events) && ParseErrorsKept(tc, files, state.record, after.record)
    requires fuel > 0 && IsUnit(entries[i]) && UpToDate(tc, files, state.record, entries[i].path) ==>
      after == state && settled && events == [Event(JobFor(srcDir, buildDir, entries[i].path), Skipped)]
    ensures Passing(tc, files, srcDir, buildDir, entries, st, fuel, i + 1, states + more[1..], after, trace + events, complete && settled)
  {
    PassExtend(tc, files, srcDir, buildDir, entries, st, fuel, i, state, trace, complete, stacks, more, after, events, settled);
    PassFacts(tc, files, st, states, state, trace, more, after, events);
    PassSettled(srcDir, buildDir, entries, i, trace, complete, events, settled);
    if fuel > 0 && IsUnit(entries[i]) && UpToDate(tc, files, state.record, entries[i].path) {
      SkippedOne(JobFor(srcDir, buildDir, entries[i].path));
    }
    PassSkipped(tc, files, srcDir, buildDir, entries, i, fuel, st, state, trace, complete, after, events, settled);
  }

  lemma SkippedOne(job: Job)
    ensures AllSkipped([Event(job, Skipped)])
  {
  }

  /**
   After the entries before `i`, the pass so far has reached `state` with
   `trace`, and finishing the fold from `i` gives the whole pass.
   */
  predicate PassFrom(tc: Toolchain, files: map<string, string>, srcDir: string, buildDir: string,
                     entries: seq<Entry>, st: BuildState, fuel: nat, i: nat,
                     state: BuildState, trace: seq<Event>, complete: bool)
  {
    && i <= |entries|
    && var rest := Pass(tc, files, srcDir, buildDir, entries[i..], state, fuel);
      Pass(tc, files, srcDir, buildDir, entries, st, fuel) == PassResult(rest.state, trace + rest.trace, complete && rest.complete)
  }

  lemma PassStart(tc: Toolchain, files: map<string, string>, srcDir: string, buildDir: string,
                  entries: seq<Entry>, st: BuildState, fuel: nat)
    ensures PassFrom(tc, files, srcDir, buildDir, entries, st, fuel, 0, st, [], true)
  {
    assert entries[0..] == entries;
  }

  /** Running entry `i`'s loop moves the fold on by one entry. */
  lemma PassExtend(tc: Toolchain, files: map<string, string>, srcDir: string, buildDir: string,
                   entries: seq<Entry>, st: BuildState, fuel: nat, i: nat,
                   state: BuildState, trace: seq<Event>, complete: bool, stacks: seq<seq<Job>>,
                   states: seq<BuildState>, after: BuildState, events: seq<Event>, settled: bool)
    requires i < |entries| && PassFrom(tc, files, srcDir, buildDir, entries, st, fuel, i, state, trace, complete)
    requires IsUnit(entries[i]) ==>
      && Run(tc, files, srcDir, buildDir, stacks, states, events)
      && stacks[0] == [JobFor(srcDir, buildDir, entries[i].path)]
      && |events| <= fuel && (settled <==> |stacks[|events|]| == 0) && (!settled ==> |events| == fuel)
    requires !IsUnit(entries[i]) ==> after == state && events == [] && settled
    requires Calls(tc, files, state, states, events, after)
    ensures PassFrom(tc, files, srcDir, buildDir, entries, st, fuel, i + 1, after, trace + events, complete && settled)
  {
    EntryIsLoop(tc, files, srcDir, buildDir, entries[i], state, fuel, stacks, states, after, events, settled);
    PassStep(tc, files, srcDir, buildDir, entries, i, state, fuel);
    PassShift(Pass(tc, files, srcDir, buildDir, entries, st, fuel), Pass(tc, files, srcDir, buildDir, entries[i..], state, fuel),
              Pass(tc, files, srcDir, buildDir, entries[i + 1..], after, fuel), trace, complete, events, settled);
  }

  /** Regrouping a fold result: what was left after `trace` is `events` and then the rest. */
  lemma PassShift(whole: PassResult, tail: PassResult, rest: PassResult, trace: seq<Event>, complete: bool,
                  events: seq<Event>, settled: bool)
    requires whole == PassResult(tail.state, trace + tail.trace, complete && tail.complete)
    requires tail == PassResult(rest.state, events + rest.trace, settled && rest.complete)
    ensures whole == PassResult(rest.state, (trace + events) + rest.trace, (complete && settled) && rest.complete)
  {
    assert trace + (events + rest.trace) == (trace + events) + rest.trace;
  }

  /** The facts about a run of calls carry over to the run extended by the calls of one more entry. */
  lemma PassFacts(tc: Toolchain, files: map<string, string>, st: BuildState, states: seq<BuildState>, state: BuildState,
                  trace: seq<Event>, more: seq<BuildState>, after: BuildState, events: seq<Event>)
    requires Calls(tc, files, st, states, trace, state)
    requires Fresh(tc, files, st.record, state.record, trace) && Stale(tc, files, state.record, trace)
    requires Framed(st.record, state.record, trace) && ParseErrorsKept(tc, files, st.record, state.record)
    requires Calls(tc, files, state, more, events, after)
    requires Fresh(tc, files, state.record, after.record, events) && Stale(tc, files, after.record, events)
    requires Framed(state.record, after.record, events) && ParseErrorsKept(tc, files, state.record, after.record)
    ensures Calls(tc, files, st, states + more[1..], trace + events, after)
    ensures Fresh(tc, files, st.record, after.record, trace + events) && Stale(tc, files, after.record, trace + events)
    ensures Framed(st.record, after.record, trace + events) && ParseErrorsKept(tc, files, st.record, after.record)
  {
    CallsAppend(tc, files, st, states, trace, state, more, events, after);
    FreshAppend(tc, files, st.record, state.record, after.record, trace, events);
    StaleAppend(tc, files, state.record, after.record, trace, events);
    FramedAppend(st.record, state.record, after.record, trace, events);
    ParseErrorsKeptTrans(tc, files, st.record, state.record, after.record);
  }

  /** No call in the trace stopped at parse errors. */
  predicate NoParseFailure(trace: seq<Event>) {
    forall k :: 0 <= k < |trace| ==> !trace[k].result.ParseFailed?
  }

  /** Every unit of the walk is up to date in `record`, or its text has parse errors. */
  predicate Converged(tc: Toolchain, files: map<string, string>, record: Record, entries: seq<Entry>) {
    forall i :: 0 <= i < |entries| && IsUnit(entries[i]) ==>
      UpToDate(tc, files, record, entries[i].path) || |tc.parse(ReadFile(files, entries[i].path))| > 0
  }

  /**
   Once every unit is settled, every unit is up to date or has parse errors,
   and with no call stopped at parse errors every unit is up to date.
   */
  lemma SettledOutcome(tc: Toolchain, files: map<string, string>, srcDir: string, buildDir: string,
                       entries: seq<Entry>, record0: Record, record: Record, trace: seq<Event>)
    requires AllSettled(srcDir, buildDir, entries, |entries|, trace)
    requires Fresh(tc, files, record0, record, trace) && Stale(tc, files, record, trace)
    ensures Converged(tc, files, record, entries)
    ensures NoParseFailure(trace) ==> AllUpToDate(tc, files, record, entries)
  {
    forall i | 0 <= i < |entries| && IsUnit(entries[i])
      ensures UpToDate(tc, files, record, entries[i].path) || |tc.parse(ReadFile(files, entries[i].path))| > 0
      ensures NoParseFailure(trace) ==> UpToDate(tc, files, record, entries[i].path)
    {
      var job := JobFor(srcDir, buildDir, entries[i].path);
      assert Settled(trace, job);
      var k :| 0 <= k < |trace| && trace[k].job == job && !trace[k].result.NotCompiled?;
    }
  }

  /**
   `compileDirectory`: the refresh pass over the walk, then the compile pass
   over the same walk, starting from the refreshed state. The trace is the
   `compileFile` calls of the second pass. The refresh changes no table but
   in its `uptodate` flag and creates only empty ones. Every unit is settled
   unless some unit's loop ran out of turns, and then every unit is up to
   date or has parse errors. No progress is lost, and the record changes only at units
   compiled. Run again on an unchanged tree, every call skips and the record
   stays as it is.
   */
  method CompileDirectory(tc: Toolchain, files: map<string, string>, srcDir: string, buildDir: string,
                          entries: seq<Entry>, st: BuildState, fuel: nat)
    returns (refreshed: BuildState, states: seq<BuildState>, state: BuildState, trace: seq<Event>, complete: bool)
    requires Walk(srcDir, entries)
    ensures refreshed.record == st.record && refreshed.compiled == st.compiled
    ensures Marked(tc, files, srcDir, buildDir, entries, |entries|, st.record, refreshed.tables)
    ensures Kept(srcDir, buildDir, entries, |entries|, st.tables, refreshed.tables)
    ensures OnlyUnits(srcDir, buildDir, entries, |entries|, st.tables, refreshed.tables)
    ensures FlagsOnly(st.tables, refreshed.tables)
    ensures Pass(tc, files, srcDir, buildDir, entries, refreshed, fuel) == PassResult(state, trace, complete)
    ensures fuel > 0 ==> forall i :: 0 <= i < |entries| && IsUnit(entries[i]) ==>
      Visited(trace, JobFor(srcDir, buildDir, entries[i].path))
    ensures Calls(tc, files, refreshed, states, trace, state)
    ensures complete ==> AllSettled(srcDir, buildDir, entries, |entries|, trace)
    ensures complete ==> Converged(tc, files, state.record, entries)
    ensures complete && NoParseFailure(trace) ==> AllUpToDate(tc, files, state.record, entries)
    ensures Fresh(tc, files, st.record, state.record, trace) && Stale(tc, files, state.record, trace)
    ensures Framed(st.record, state.record, trace) && ParseErrorsKept(tc, files, st.record, state.record)
    ensures fuel > 0 && AllUpToDate(tc, files, st.record, entries) ==>
      state.record == st.record && complete && AllSkipped(trace)
  {
    refreshed := RefreshTables(tc, files, srcDir, buildDir, entries, st);
    states, state, trace, complete := CompileUnits(tc, files, srcDir, buildDir, entries, refreshed, fuel);
    if complete {
      SettledOutcome(tc, files, srcDir, buildDir, entries, st.record, state.record, trace);
    }
    forall i | fuel > 0 && 0 <= i < |entries| && IsUnit(entries[i])
      ensures Visited(trace, JobFor(srcDir, buildDir, entries[i].path))
    {
      PassVisits(tc, files, srcDir, buildDir, entries, refreshed, fuel, i);
    }
  }

  /**
   Building twice: when the first build settles every unit and no call stops
   at parse errors, the second build skips every unit and leaves the record
   as the first left it.
   */
  method CompileDirectoryTwice(tc: Toolchain, files: map<string, string>, srcDir: string, buildDir: string,
                               entries: seq<Entry>, st: BuildState, fuel: nat)
    returns (first: BuildState, trace1: seq<Event>, complete1: bool,
             second: BuildState, trace2: seq<Event>, complete2: bool)
    requires Walk(srcDir, entries)
    ensures fuel > 0 && complete1 && NoParseFailure(trace1) ==>
      second.record == first.record && complete2 && AllSkipped(trace2)
  {
    var refreshed1, states1, refreshed2, states2;
    refreshed1, states1, first, trace1, complete1 := CompileDirectory(tc, files, srcDir, buildDir, entries, st, fuel);
    refreshed2, states2, second, trace2, complete2 := CompileDirectory(tc, files, srcDir, buildDir, entries, first, fuel);
  }
}
