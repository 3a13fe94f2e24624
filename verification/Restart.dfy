/**
 Runs over the bytes of the file. `Runs` keeps, for the disk, the durable projection of what a save wrote; here a
 save writes the file that `SaveFile` builds, a restart reads back whatever bytes are there, and both may fail. A
 run whose saved states were persistable goes exactly as the run in `Runs`, so its safety holds over real files.
 */
module Restart {
  import opened Types
  import opened Names
  import opened Engine
  import opened Durable
  import opened Store
  import opened Runs
  import opened PlanLifecycle
  import opened Safety

  /** The live state, the file, and the identities handed out so far. */
  datatype Process = Process(st: State, file: Option<bytes>, used: Ids)

  /** A save that fails leaves the previous file; a process that cannot load a file starts from a new coordinator. */
  function ProcessStep(e: Enums, r: Process, a: Action): Process {
    match a
    case Saved => if SaveFile(e, r.st).Ok? then r.(file := Some(SaveFile(e, r.st).value)) else r
    case Loaded =>
      if r.file.Some? && LoadFile(e, r.file.value).Ok? then r.(st := LoadFile(e, r.file.value).value)
      else r.(st := Initial(r.st.coordinatorId))
    case _ => Process(StateAfter(r.st, a), r.file, Joined(r.used, NewIds(a)))
  }

  function Running(e: Enums, c: Id, run: seq<Action>): Process {
    if run == [] then Process(Initial(c), None, NO_IDS)
    else ProcessStep(e, Running(e, c, run[..|run| - 1]), run[|run| - 1])
  }

  /** New identities are new. */
  predicate Allowed(e: Enums, c: Id, run: seq<Action>) {
    run == [] ||
    (Allowed(e, c, run[..|run| - 1]) && Apart(NewIds(run[|run| - 1]), Running(e, c, run[..|run| - 1]).used))
  }

  predicate Failed(e: Enums, r: Process, a: Action) {
    a.Saved? && SaveFile(e, r.st).Err?
  }

  /** Whatever a save did write was persistable. */
  ghost predicate SavesPersist(e: Enums, c: Id, run: seq<Action>) {
    forall i :: 0 <= i < |run| ==> Persists(e, Running(e, c, run[..i]).st, run[i])
  }

  ghost predicate Persists(e: Enums, s: State, a: Action) {
    a.Saved? && SaveFile(e, s).Ok? ==> Persistable(e, s)
  }

  /** The run without the saves that failed. */
  function Kept(e: Enums, c: Id, run: seq<Action>): seq<Action> {
    if run == [] then []
    else
      var front := run[..|run| - 1];
      Kept(e, c, front) + if Failed(e, Running(e, c, front), run[|run| - 1]) then [] else [run[|run| - 1]]
  }

  // ---- The two kinds of run agree ----

  ghost predicate Matches(e: Enums, r: Process, w: World) {
    && r.st == w.st && r.used == w.used
    && match r.file
       case None => w.disk == None
       case Some(file) => w.disk.Some? && ReadFile(e, file) == Ok(w.disk.value)
  }

  lemma SaveMatches(e: Enums, r: Process, w: World)
    requires Matches(e, r, w) && Persists(e, r.st, Saved)
    ensures if Failed(e, r, Saved) then ProcessStep(e, r, Saved) == r
            else Matches(e, ProcessStep(e, r, Saved), Apply(w, Saved))
  {
    hide SaveFile, ReadFile, LoadFile, Persistable, StateAfter, Project, Apply;
    SavedWorld(w);
    if SaveFile(e, r.st).Ok? {
      LoadAfterSave(e, r.st);
    }
  }

  lemma LoadMatches(e: Enums, r: Process, w: World)
    requires Matches(e, r, w)
    ensures Matches(e, ProcessStep(e, r, Loaded), Apply(w, Loaded))
  {
    hide SaveFile, ReadFile, StateAfter, Recover, Apply;
    LoadedWorld(w);
  }

  lemma OtherMatches(e: Enums, r: Process, w: World, a: Action)
    requires Matches(e, r, w) && !a.Saved? && !a.Loaded?
    ensures Matches(e, ProcessStep(e, r, a), Apply(w, a))
  {
    hide SaveFile, LoadFile, ReadFile, StateAfter, HeldAfter, Project, Recover;
  }

  lemma MatchStep(e: Enums, r: Process, w: World, a: Action)
    requires Matches(e, r, w) && Persists(e, r.st, a)
    ensures if Failed(e, r, a) then ProcessStep(e, r, a) == r else Matches(e, ProcessStep(e, r, a), Apply(w, a))
  {
    hide Matches, Persists, ProcessStep, Apply, SaveFile;
    if a.Saved? {
      SaveMatches(e, r, w);
    } else if a.Loaded? {
      LoadMatches(e, r, w);
    } else {
      OtherMatches(e, r, w, a);
    }
  }

  lemma FrontPersists(e: Enums, c: Id, run: seq<Action>)
    requires run != [] && SavesPersist(e, c, run)
    ensures SavesPersist(e, c, run[..|run| - 1])
    ensures Persists(e, Running(e, c, run[..|run| - 1]).st, run[|run| - 1])
  {
    hide Persists, ProcessStep;
    var front := run[..|run| - 1];
    assert run[..|front|] == front;
    forall i | 0 <= i < |front| ensures Persists(e, Running(e, c, front[..i]).st, front[i]) {
      assert front[..i] == run[..i];
    }
  }

  /**
   If every save that succeeded was of a persistable state, the run over the file has the state of the run in
   `Runs` without the failed saves, and the bytes on disk read back as the state that run keeps for the disk.
   */
  lemma {:induction false} FileHoldsDisk(e: Enums, c: Id, run: seq<Action>)
    requires SavesPersist(e, c, run)
    ensures Matches(e, Running(e, c, run), After(c, Kept(e, c, run)))
    ensures Allowed(e, c, run) ==> Legal(c, Kept(e, c, run))
  {
    hide Persists, SavesPersist, ProcessStep, Apply, Failed, ReadFile;
    if run != [] {
      var front, a := run[..|run| - 1], run[|run| - 1];
      FrontPersists(e, c, run);
      FileHoldsDisk(e, c, front);
      MatchStep(e, Running(e, c, front), After(c, Kept(e, c, front)), a);
      if Failed(e, Running(e, c, front), a) {
        assert Kept(e, c, run) == Kept(e, c, front);
      } else {
        assert Kept(e, c, run)[..|Kept(e, c, run)| - 1] == Kept(e, c, front);
      }
    }
  }

  /** So every load finds a file it accepts, and starts from the recovered projection of what was saved last. */
  lemma LoadsSucceed(e: Enums, c: Id, run: seq<Action>)
    requires SavesPersist(e, c, run) && Running(e, c, run).file.Some?
    ensures var disk := After(c, Kept(e, c, run)).disk;
            disk.Some? && LoadFile(e, Running(e, c, run).file.value) == Ok(Recover(disk.value))
  {
    hide Running, After, Kept, ReadFile, Recover;
    FileHoldsDisk(e, c, run);
  }

  // ---- Prefixes ----

  lemma PrefixPersists(e: Enums, c: Id, run: seq<Action>, i: nat)
    requires SavesPersist(e, c, run) && i <= |run|
    ensures SavesPersist(e, c, run[..i])
  {
    hide Persists, Running;
    forall j | 0 <= j < i ensures Persists(e, Running(e, c, run[..i][..j]).st, run[..i][j]) {
      assert run[..i][..j] == run[..j];
    }
  }

  lemma {:induction false} KeptPrefix(e: Enums, c: Id, run: seq<Action>, i: nat)
    requires i <= |run|
    ensures Kept(e, c, run[..i]) <= Kept(e, c, run)
    ensures i < |run| && !run[i].Saved? ==> Kept(e, c, run[..i]) + [run[i]] <= Kept(e, c, run)
    decreases |run|
  {
    hide Running;
    if i == |run| {
      assert run[..i] == run;
    } else {
      var front := run[..|run| - 1];
      assert front[..i] == run[..i];
      KeptPrefix(e, c, front, i);
    }
  }

  /** Where an action that is not a save ends up. */
  lemma KeptAt(e: Enums, c: Id, run: seq<Action>, i: nat)
    requires i < |run| && !run[i].Saved?
    ensures var k, n := Kept(e, c, run), |Kept(e, c, run[..i])|;
            n < |k| && k[..n] == Kept(e, c, run[..i]) && k[n] == run[i]
  {
    hide Running, Kept;
    KeptPrefix(e, c, run, i);
    var k, front := Kept(e, c, run), Kept(e, c, run[..i]);
    assert front + [run[i]] == k[..|front| + 1];
  }

  // ---- Safety over files ----

  lemma OneResultAcrossFiles(e: Enums, c: Id, run: seq<Action>)
    requires Allowed(e, c, run) && SavesPersist(e, c, run)
    ensures ResultsConsistent(Running(e, c, run).st)
  {
    hide Running, After, Kept, ResultsConsistent, Legal, Allowed, SavesPersist;
    FileHoldsDisk(e, c, run);
    OneResultPerPlan(c, Kept(e, c, run));
  }

  /** What revokes a plan when the disk is a file. */
  predicate RevokesOverFile(r: Process, a: Action, plan: Plan) {
    Revokes(World(r.st, None, r.used, {}), a, plan)
  }

  lemma NoSaveRevokes(r: Process, a: Action, p: Id)
    requires p in r.st.plans && RevokesOverFile(r, a, r.st.plans[p])
    ensures !a.Saved?
  {
  }

  lemma RevokesAlike(e: Enums, r: Process, w: World, a: Action, plan: Plan)
    requires Matches(e, r, w) && RevokesOverFile(r, a, plan)
    ensures Revokes(w, a, plan)
  {
    hide ReadFile;
  }

  lemma RevocationAcrossFiles(e: Enums, c: Id, run: seq<Action>, i: nat, p: Id)
    requires Allowed(e, c, run) && SavesPersist(e, c, run) && i < |run|
    requires var r := Running(e, c, run[..i]);
             && p in r.st.plans && r.st.plans[p].lifecycle != COMMITTED
             && RevokesOverFile(r, run[i], r.st.plans[p])
    ensures var s := Running(e, c, run).st;
            && (p in s.plans ==> !Live(s.plans[p].lifecycle) && s.plans[p].lifecycle != COMMITTED)
            && forall m: ResultMsg, id | m.plan == p :: ApplyResult(s, m, id).0 == s
  {
    hide Running, After, Kept, Legal, Allowed, SavesPersist, ApplyResult, RevokesOverFile, Revokes, ReadFile;
    var k, n := Kept(e, c, run), |Kept(e, c, run[..i])|;
    FileHoldsDisk(e, c, run);
    PrefixPersists(e, c, run, i);
    FileHoldsDisk(e, c, run[..i]);
    assert !run[i].Saved? by { NoSaveRevokes(Running(e, c, run[..i]), run[i], p); }
    KeptAt(e, c, run, i);
    RevokesAlike(e, Running(e, c, run[..i]), After(c, k[..n]), run[i], Running(e, c, run[..i]).st.plans[p]);
    RevocationIsFinal(c, k, n, p);
  }

  lemma RankAcrossFiles(e: Enums, c: Id, run: seq<Action>, i: nat, p: Id)
    requires Allowed(e, c, run) && SavesPersist(e, c, run) && i <= |run|
    requires p in Running(e, c, run[..i]).st.plans && p in Running(e, c, run).st.plans
    ensures Rank(Running(e, c, run[..i]).st.plans[p].lifecycle) <= Rank(Running(e, c, run).st.plans[p].lifecycle)
  {
    hide Running, After, Kept, Legal, Allowed, SavesPersist;
    FileHoldsDisk(e, c, run);
    PrefixPersists(e, c, run, i);
    FileHoldsDisk(e, c, run[..i]);
    KeptPrefix(e, c, run, i);
    assert Kept(e, c, run)[..|Kept(e, c, run[..i])|] == Kept(e, c, run[..i]);
    RankNeverFalls(c, Kept(e, c, run), |Kept(e, c, run[..i])|, p);
  }
}
