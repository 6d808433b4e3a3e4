/** The release reconciler of rls.go, run against a scripted stand-in for
    the `GitHub` interface.

    `World` is everything outside the program that the reconciler touches:
    the ordered trace of gateway calls and sleeps, and Go's allocator, which
    hands out the identities of new error values. `FakeGitHub` answers every
    call with the outcome its `Script` fixes for that operation. `RLS`
    follows rls.go statement by statement; its methods are specified by the
    functions `Teardown` and `Reconcile`, about which the lemmas below state
    what the reconciler promises. */
module Rls {
  import opened GoErrors
  import GitHub

  type Release = GitHub.RepositoryRelease

  /** The seconds `DeleteRelease` waits after deleting the tag. */
  const SettleSeconds: nat := 5

  /** One step visible outside the program: a gateway call or a sleep. */
  datatype Event =
    | CreateReleaseCall(req: Release)
    | GetReleaseCall(tag: string)
    | DeleteReleaseCall(releaseID: int)
    | DeleteTagCall(tag: string)
    | GetCommitsCall(opts: GitHub.CommitsListOptions)
    | Slept(seconds: nat)

  /** The outcome the fake gateway returns for each of its operations. */
  datatype Script = Script(
    createRelease: Result<Release>,
    getRelease: Result<Release>,
    deleteRelease: Option<Error>,
    deleteTag: Option<Error>,
    getCommits: Result<seq<GitHub.RepositoryCommit>>)

  /** Every error the script can hand back was allocated before identity
      `next`, as any error that exists when a call returns has been. */
  predicate AllocatedBefore(s: Script, next: nat)
  {
    (s.createRelease.Fail? ==> s.createRelease.error.id < next) &&
    (s.getRelease.Fail? ==> s.getRelease.error.id < next) &&
    (s.deleteRelease.Some? ==> s.deleteRelease.value.id < next) &&
    (s.deleteTag.Some? ==> s.deleteTag.value.id < next) &&
    (s.getCommits.Fail? ==> s.getCommits.error.id < next)
  }

  /** The events `RLS.DeleteRelease` causes and the error it returns. */
  datatype Deletion = Deletion(events: seq<Event>, err: Option<Error>)

  /** Everything `RLS.CreateRelease` does: the events it causes, the lines
      it writes to its output stream, its result, and how many errors it
      allocates. */
  datatype Run = Run(events: seq<Event>, output: seq<string>, result: Result<Release>, allocations: nat)

  /** How many events of `events` are calls to `CreateRelease`. */
  function CreateCalls(events: seq<Event>): (n: nat)
  {
    if events == [] then 0
    else CreateCalls(events[..|events| - 1]) + (if events[|events| - 1].CreateReleaseCall? then 1 else 0)
  }

  /** `RLS.DeleteRelease(id, tag)`: delete the release, then the tag, then
      wait; the first failure ends it and is returned as it came. */
  function Teardown(s: Script, releaseID: int, tag: string): (d: Deletion)
    ensures |d.events| > 0 && d.events[0] == DeleteReleaseCall(releaseID)
    ensures d.err.None? <==> s.deleteRelease.None? && s.deleteTag.None?
    ensures d.err.None? ==> d.events == [DeleteReleaseCall(releaseID), DeleteTagCall(tag), Slept(SettleSeconds)]
    ensures d.err.Some? ==> d.err == (if s.deleteRelease.Some? then s.deleteRelease else s.deleteTag)
    ensures d.err.Some? ==> Slept(SettleSeconds) !in d.events
    ensures s.deleteRelease.Some? ==> d.events == [DeleteReleaseCall(releaseID)]
    ensures s.deleteRelease.None? && s.deleteTag.Some? ==> d.events == [DeleteReleaseCall(releaseID), DeleteTagCall(tag)]
    ensures forall i :: 0 <= i < |d.events| ==> !d.events[i].CreateReleaseCall?
  {
    if s.deleteRelease.Some? then
      Deletion([DeleteReleaseCall(releaseID)], s.deleteRelease)
    else if s.deleteTag.Some? then
      Deletion([DeleteReleaseCall(releaseID), DeleteTagCall(tag)], s.deleteTag)
    else
      Deletion([DeleteReleaseCall(releaseID), DeleteTagCall(tag), Slept(SettleSeconds)], None)
  }

  const DraftNotice := "==> Create a draft release\n"
  const CreateNotice := "==> Create a new release\n"
  const RecreateNotice := "==> Recreate a release\n"

  function RecreateMissingWarning(tag: string): (line: string)
  {
    "WARNING: '-recreate' is specified but release (" + tag + ") not found"
  }

  function ReuseWarning(tag: string): (line: string)
  {
    "WARNING: found release (" + tag + "). Use existing one.\n"
  }

  /** `RLS.CreateRelease(req, recreate)` against the script `s`, when the next
      error allocated receives identity `next`. The lookup error is compared
      with the error `fmt.Errorf` allocates for the comparison, identity
      `next`; only an error with that very identity selects the create path
      of rls.go:35-42. */
  function Reconcile(s: Script, req: Release, recreate: bool, next: nat): (run: Run)
    ensures |run.events| > 0
    ensures req.draft <==> run.events[0] == CreateReleaseCall(req)
    ensures !req.draft ==> run.events[0] == GetReleaseCall(req.tagName)
    ensures forall i :: 0 <= i < |run.events| - 1 ==> !run.events[i].CreateReleaseCall?
    ensures run.events[|run.events| - 1].CreateReleaseCall? ==>
              run.events[|run.events| - 1] == CreateReleaseCall(req) && run.result == s.createRelease
  {
    if req.draft then
      Run([CreateReleaseCall(req)], [DraftNotice], s.createRelease, 0)
    else
      var lookup := [GetReleaseCall(req.tagName)];
      match s.getRelease
      case Fail(e) =>
        var probe := New(next, "release is not found");
        if !Same(e, probe) then
          Run(lookup, [], Fail(Wrap(next + 1, e, "failed to get release")), 2)
        else
          Run(lookup + [CreateReleaseCall(req)],
              (if recreate then [RecreateMissingWarning(req.tagName)] else []) + [CreateNotice],
              s.createRelease, 1)
      case Ok(found) =>
        if !recreate then
          Run(lookup, [ReuseWarning(req.tagName)], Ok(found), 0)
        else
          var d := Teardown(s, found.id, req.tagName);
          if d.err.Some? then
            Run(lookup + d.events, [RecreateNotice], Fail(d.err.value), 0)
          else
            Run(lookup + d.events + [CreateReleaseCall(req)], [RecreateNotice], s.createRelease, 0)
  }

  /** A trace with no create call before its last event counts at most one,
      and exactly one when the last event is a create call. */
  lemma {:induction false} CreateCallsAtMostLast(events: seq<Event>)
    requires forall i :: 0 <= i < |events| - 1 ==> !events[i].CreateReleaseCall?
    ensures CreateCalls(events) <= 1
    ensures CreateCalls(events) == 1 <==> |events| > 0 && events[|events| - 1].CreateReleaseCall?
  {
    if events != [] {
      NoCreateCalls(events[..|events| - 1]);
    }
  }

  lemma {:induction false} NoCreateCalls(events: seq<Event>)
    requires forall i :: 0 <= i < |events| ==> !events[i].CreateReleaseCall?
    ensures CreateCalls(events) == 0
  {
    if events != [] {
      NoCreateCalls(events[..|events| - 1]);
    }
  }

  /** On every path `CreateRelease` is called at most once; when it is
      called it is the last step and its outcome is the result, verbatim. */
  lemma CreateAtMostOnce(s: Script, req: Release, recreate: bool, next: nat)
    ensures var run := Reconcile(s, req, recreate, next);
            CreateCalls(run.events) <= 1 &&
            (CreateCalls(run.events) == 1 ==>
               run.events[|run.events| - 1] == CreateReleaseCall(req) && run.result == s.createRelease)
  {
    CreateCallsAtMostLast(Reconcile(s, req, recreate, next).events);
  }

  /** A draft request is created without any check: one gateway call,
      `CreateRelease(req)`, whose outcome is returned verbatim. */
  lemma DraftCreatesDirectly(s: Script, req: Release, recreate: bool, next: nat)
    requires req.draft
    ensures var run := Reconcile(s, req, recreate, next);
            run.events == [CreateReleaseCall(req)] && run.result == s.createRelease &&
            run.output == [DraftNotice] && run.allocations == 0
  {
  }

  /** The test at rls.go:32 recognises a lookup error only if it has the
      identity of the error allocated for the test itself; exactly then is
      the create path of rls.go:35-42 taken. */
  lemma NotFoundPathNeedsProbeIdentity(s: Script, req: Release, recreate: bool, next: nat)
    requires !req.draft && s.getRelease.Fail?
    ensures var run := Reconcile(s, req, recreate, next);
            CreateReleaseCall(req) in run.events <==> s.getRelease.error.id == next
  {
    var run := Reconcile(s, req, recreate, next);
    if s.getRelease.error.id != next {
      assert run.events == [GetReleaseCall(req.tagName)];
    }
  }

  /** Every lookup error ends the run: it is wrapped as "failed to get
      release", nothing is created or deleted and no warning is written. The
      create path of rls.go:35-42 cannot be reached. */
  lemma LookupErrorIsFatal(s: Script, req: Release, recreate: bool, next: nat)
    requires !req.draft && s.getRelease.Fail? && AllocatedBefore(s, next)
    ensures var run := Reconcile(s, req, recreate, next);
            run.events == [GetReleaseCall(req.tagName)] &&
            run.result == Fail(Wrap(next + 1, s.getRelease.error, "failed to get release")) &&
            Text(run.result.error) == "failed to get release: " + Text(s.getRelease.error) &&
            run.output == []
  {
  }

  /** A 404 from the service reaches the reconciler as the `RelaseNotFound`
      sentinel and is still reported as a lookup failure: the release is
      not created and the recreate warning is never written. */
  lemma NotFoundFromServiceIsFatal(c: GitHub.Client, reply: GitHub.Reply<Release>, newId: GitHub.NewId,
                                   s: Script, req: Release, recreate: bool, next: nat)
    requires GitHub.IsNotFound(reply) && !req.draft
    requires s.getRelease == GitHub.GetRelease(c, req.tagName, reply, newId).outcome
    requires next > GitHub.RelaseNotFound.id
    ensures var run := Reconcile(s, req, recreate, next);
            run.events == [GetReleaseCall(req.tagName)] &&
            run.result.Fail? && run.result.error.cause == Some(GitHub.RelaseNotFound) &&
            Text(run.result.error) == "failed to get release: release is not found" &&
            RecreateMissingWarning(req.tagName) !in run.output
  {
  }

  /** A found release without `recreate` is returned unchanged, with no
      delete and no create call. */
  lemma FoundReleaseReused(s: Script, req: Release, next: nat)
    requires !req.draft && s.getRelease.Ok?
    ensures var run := Reconcile(s, req, false, next);
            run.events == [GetReleaseCall(req.tagName)] && run.result == s.getRelease &&
            run.output == [ReuseWarning(req.tagName)]
  {
  }

  /** Recreating a found release: look it up, delete it by its id, delete
      the tag, wait, create; the create outcome is returned verbatim. */
  lemma RecreateSequence(s: Script, req: Release, next: nat)
    requires !req.draft && s.getRelease.Ok? && s.deleteRelease.None? && s.deleteTag.None?
    ensures var run := Reconcile(s, req, true, next);
            run.events == [GetReleaseCall(req.tagName), DeleteReleaseCall(s.getRelease.value.id),
                           DeleteTagCall(req.tagName), Slept(SettleSeconds), CreateReleaseCall(req)] &&
            run.result == s.createRelease
  {
  }

  /** A failed release deletion is returned unwrapped; the tag is not
      deleted, there is no wait and nothing is created. */
  lemma DeleteReleaseFailureStops(s: Script, req: Release, next: nat)
    requires !req.draft && s.getRelease.Ok? && s.deleteRelease.Some?
    ensures var run := Reconcile(s, req, true, next);
            run.events == [GetReleaseCall(req.tagName), DeleteReleaseCall(s.getRelease.value.id)] &&
            run.result == Fail(s.deleteRelease.value)
  {
  }

  /** A failed tag deletion after the release was deleted is returned
      unwrapped; there is no wait and nothing is created. */
  lemma DeleteTagFailureStops(s: Script, req: Release, next: nat)
    requires !req.draft && s.getRelease.Ok? && s.deleteRelease.None? && s.deleteTag.Some?
    ensures var run := Reconcile(s, req, true, next);
            run.events == [GetReleaseCall(req.tagName), DeleteReleaseCall(s.getRelease.value.id),
                           DeleteTagCall(req.tagName)] &&
            run.result == Fail(s.deleteTag.value)
  {
  }

  /** A run that deletes and then creates does so only after both deletions
      succeeded and the wait elapsed. */
  lemma CreateOnlyAfterTeardown(s: Script, req: Release, recreate: bool, next: nat, i: nat)
    requires var run := Reconcile(s, req, recreate, next);
             i < |run.events| && run.events[i].DeleteReleaseCall? && CreateReleaseCall(req) in run.events
    ensures s.deleteRelease.None? && s.deleteTag.None?
    ensures var run := Reconcile(s, req, recreate, next);
            i == 1 && |run.events| == 5 && run.events[2] == DeleteTagCall(req.tagName) &&
            run.events[3] == Slept(SettleSeconds) && run.events[4] == CreateReleaseCall(req)
  {
  }

  /** The environment: the trace of calls and sleeps, and the allocator. */
  class World {
    var events: seq<Event>
    /** The identity the next allocated error receives. */
    var next: nat

    /** Identity 0 is the `RelaseNotFound` sentinel, allocated at start-up. */
    constructor ()
      ensures events == [] && next == GitHub.RelaseNotFound.id + 1
    {
      events := [];
      next := GitHub.RelaseNotFound.id + 1;
    }

    method Record(e: Event)
      modifies this
      ensures events == old(events) + [e] && next == old(next)
    {
      events := events + [e];
    }

    /** A new allocation: it takes the identity `next` and moves `next` past
        it, so no later allocation receives it again. */
    method Alloc() returns (id: nat)
      modifies this
      ensures id == old(next) && next == old(next) + 1 && events == old(events)
    {
      id := next;
      next := next + 1;
    }

    /** `time.Sleep`: only its place in the trace is modelled. */
    method Sleep(seconds: nat)
      modifies this
      ensures events == old(events) + [Slept(seconds)] && next == old(next)
    {
      Record(Slept(seconds));
    }
  }

  /** A scripted implementation of the `GitHub` interface. */
  class FakeGitHub {
    const world: World
    const script: Script

    /** The scripted errors exist already, so `world` has allocated them. */
    predicate Valid()
      reads world
    {
      AllocatedBefore(script, world.next)
    }

    constructor (world: World, script: Script)
      requires AllocatedBefore(script, world.next)
      ensures this.world == world && this.script == script
      ensures Valid()
    {
      this.world := world;
      this.script := script;
    }

    method CreateRelease(req: Release) returns (r: Result<Release>)
      modifies world
      ensures world.events == old(world.events) + [CreateReleaseCall(req)] && world.next == old(world.next)
      ensures r == script.createRelease
    {
      world.Record(CreateReleaseCall(req));
      r := script.createRelease;
    }

    method GetRelease(tag: string) returns (r: Result<Release>)
      modifies world
      ensures world.events == old(world.events) + [GetReleaseCall(tag)] && world.next == old(world.next)
      ensures r == script.getRelease
    {
      world.Record(GetReleaseCall(tag));
      r := script.getRelease;
    }

    method DeleteRelease(releaseID: int) returns (err: Option<Error>)
      modifies world
      ensures world.events == old(world.events) + [DeleteReleaseCall(releaseID)] && world.next == old(world.next)
      ensures err == script.deleteRelease
    {
      world.Record(DeleteReleaseCall(releaseID));
      err := script.deleteRelease;
    }

    method DeleteTag(tag: string) returns (err: Option<Error>)
      modifies world
      ensures world.events == old(world.events) + [DeleteTagCall(tag)] && world.next == old(world.next)
      ensures err == script.deleteTag
    {
      world.Record(DeleteTagCall(tag));
      err := script.deleteTag;
    }

    method GetCommits(opts: GitHub.CommitsListOptions) returns (r: Result<seq<GitHub.RepositoryCommit>>)
      modifies world
      ensures world.events == old(world.events) + [GetCommitsCall(opts)] && world.next == old(world.next)
      ensures r == script.getCommits
    {
      world.Record(GetCommitsCall(opts));
      r := script.getCommits;
    }
  }

  /** `RLS`: the gateway and the output stream, as the lines written to it. */
  class RLS {
    const gitHub: FakeGitHub
    var outStream: seq<string>

    constructor (gitHub: FakeGitHub)
      ensures this.gitHub == gitHub && outStream == []
    {
      this.gitHub := gitHub;
      outStream := [];
    }

    method Write(line: string)
      modifies this
      ensures outStream == old(outStream) + [line]
    {
      outStream := outStream + [line];
    }

    /** `RLS.CreateRelease`. */
    method CreateRelease(req: Release, recreate: bool) returns (release: Result<Release>)
      modifies this, gitHub.world
      ensures var run := Reconcile(gitHub.script, req, recreate, old(gitHub.world.next));
              gitHub.world.events == old(gitHub.world.events) + run.events &&
              gitHub.world.next == old(gitHub.world.next) + run.allocations &&
              outStream == old(outStream) + run.output &&
              release == run.result
      ensures old(gitHub.Valid()) ==> gitHub.Valid()
      ensures old(gitHub.Valid()) && !req.draft && gitHub.script.getRelease.Fail? ==>
                gitHub.world.events == old(gitHub.world.events) + [GetReleaseCall(req.tagName)] &&
                outStream == old(outStream) &&
                release == Fail(Wrap(old(gitHub.world.next) + 1, gitHub.script.getRelease.error, "failed to get release"))
    {
      var world := gitHub.world;
      if req.draft {
        Write(DraftNotice);
        release := gitHub.CreateRelease(req);
        return;
      }

      var got := gitHub.GetRelease(req.tagName);
      if got.Fail? {
        var probeId := world.Alloc();
        var probe := New(probeId, "release is not found");
        if !Same(got.error, probe) {
          var wrapId := world.Alloc();
          release := Fail(Wrap(wrapId, got.error, "failed to get release"));
          return;
        }
        if recreate {
          Write(RecreateMissingWarning(req.tagName));
        }
        Write(CreateNotice);
        release := gitHub.CreateRelease(req);
        return;
      }

      var found := got.value;
      if !recreate {
        Write(ReuseWarning(req.tagName));
        release := Ok(found);
        return;
      }

      Write(RecreateNotice);
      var err := DeleteRelease(found.id, req.tagName);
      if err.Some? {
        release := Fail(err.value);
        return;
      }
      release := gitHub.CreateRelease(req);
    }

    /** `RLS.DeleteRelease`. */
    method DeleteRelease(releaseID: int, tag: string) returns (err: Option<Error>)
      modifies gitHub.world
      ensures var d := Teardown(gitHub.script, releaseID, tag);
              gitHub.world.events == old(gitHub.world.events) + d.events &&
              gitHub.world.next == old(gitHub.world.next) &&
              err == d.err
      ensures old(gitHub.Valid()) ==> gitHub.Valid()
    {
      err := gitHub.DeleteRelease(releaseID);
      if err.Some? {
        return;
      }
      err := gitHub.DeleteTag(tag);
      if err.Some? {
        return;
      }
      gitHub.world.Sleep(SettleSeconds);
    }

    /** `RLS.GetCommits`: forwards to the gateway. */
    method GetCommits(opts: GitHub.CommitsListOptions) returns (r: Result<seq<GitHub.RepositoryCommit>>)
      modifies gitHub.world
      ensures gitHub.world.events == old(gitHub.world.events) + [GetCommitsCall(opts)]
      ensures gitHub.world.next == old(gitHub.world.next)
      ensures r == gitHub.script.getCommits
      ensures old(gitHub.Valid()) ==> gitHub.Valid()
    {
      r := gitHub.GetCommits(opts);
    }
  }
}
