/** The branch lifecycle client, step by step, as neontestdb.go runs it.

    The remote project is an object (Remote) whose branch list the client
    changes through the API and which records every request it receives;
    time.Sleep records its durations on a Clock; the caller's callback
    records the connection URIs it is handed.  Status codes, the new
    branch's identifier and its connection URIs are the service's answers,
    passed in as parameters.  Each method is proved to have exactly the
    effect the matching function of module Lifecycle describes. */
module NeonTestDb {
  import opened Results
  import opened HttpStatus
  import opened Registry
  import opened Wire
  import opened Retry
  import opened Naming
  import opened Lifecycle

  /** The remote project as the API exposes it. */
  class Remote {
    var branches: seq<Branch>
    var requests: seq<Request>

    constructor (branches: seq<Branch>)
      ensures this.branches == branches && requests == []
    {
      this.branches := branches;
      requests := [];
    }

    /** The service receives a request. */
    method Receive(req: Request)
      modifies this
      ensures requests == old(requests) + [req] && branches == old(branches)
    {
      requests := requests + [req];
    }

    /** The service creates a branch: it is listed last. */
    method Add(b: Branch)
      modifies this
      ensures branches == old(branches) + [b] && requests == old(requests)
    {
      branches := branches + [b];
    }

    /** The service deletes what the path segment addresses. */
    method Remove(seg: string)
      modifies this
      ensures branches == Without(old(branches), seg) && requests == old(requests)
    {
      branches := Without(branches, seg);
    }
  }

  /** time.Sleep: the durations slept, in nanoseconds, in order. */
  class Clock {
    var slept: seq<int>

    constructor ()
      ensures slept == []
    {
      slept := [];
    }

    method Sleep(d: int)
      modifies this
      ensures slept == old(slept) + [d]
    {
      slept := slept + [d];
    }
  }

  /** The test body handed to UsingBranch: the URIs it was called with, and
      the project's branches as they stood at each call. */
  class Callback {
    var received: seq<ConnectionURI>
    var seen: seq<seq<Branch>>

    constructor ()
      ensures received == [] && seen == []
    {
      received := [];
      seen := [];
    }

    method Call(uri: ConnectionURI, live: seq<Branch>)
      modifies this
      ensures received == old(received) + [uri] && seen == old(seen) + [live]
    {
      received := received + [uri];
      seen := seen + [live];
    }
  }

  const ApiKeyVar: string := "NEON_API_KEY"
  const ProjectVar: string := "NEON_PROJECT_ID"

  /** os.Getenv: the empty string for an unset variable. */
  function Getenv(env: map<string, string>, key: string): (r: string)
    ensures key !in env ==> r == ""
    ensures key in env ==> r == env[key]
  {
    if key in env then env[key] else ""
  }

  /** The package's process-wide state: the default parent branch. */
  class Package {
    var defaultBranch: string

    /** The package variable starts out as "main". */
    constructor ()
      ensures defaultBranch == "main"
    {
      defaultBranch := "main";
    }

    method SetDefaultBranch(branch: string)
      modifies this
      ensures defaultBranch == branch
    {
      defaultBranch := branch;
    }

    /** LoadClient: both credentials must be set (the API key is checked
        first); the client takes the default branch as it is now. */
    method LoadClient(env: map<string, string>, http: Remote, clock: Clock) returns (r: Outcome<Client>)
      ensures Getenv(env, ApiKeyVar) == "" ==> r == Fatal(MissingEnv(ApiKeyVar))
      ensures Getenv(env, ApiKeyVar) != "" && Getenv(env, ProjectVar) == "" ==> r == Fatal(MissingEnv(ProjectVar))
      ensures r.Done? <==> Getenv(env, ApiKeyVar) != "" && Getenv(env, ProjectVar) != ""
      ensures r.Done? ==>
        r.value.Key == Getenv(env, ApiKeyVar) && r.value.ProjectID == Getenv(env, ProjectVar) &&
        r.value.Branch == defaultBranch && !r.value.NoCleanup &&
        r.value.http == http && r.value.clock == clock
    {
      var key := Getenv(env, ApiKeyVar);
      if key == "" {
        return Fatal(MissingEnv(ApiKeyVar));
      }
      var projectId := Getenv(env, ProjectVar);
      if projectId == "" {
        return Fatal(MissingEnv(ProjectVar));
      }
      var c := new Client(http, clock, key, projectId, defaultBranch, false);
      r := Done(c);
    }
  }

  /** GetBranchByName's loop: the first branch of that display name. */
  method FindByName(branches: seq<Branch>, name: string) returns (r: Option<Branch>)
    ensures r.None? <==> forall b :: b in branches ==> b.name != name
    ensures r.Some? ==> r.value in branches && r.value.name == name
    ensures r.Some? ==> r.value == branches[FirstNamed(branches, name).value]
  {
    for i := 0 to |branches|
      invariant forall j :: 0 <= j < i ==> branches[j].name != name
    {
      if branches[i].name == name {
        return Some(branches[i]);
      }
    }
    return None;
  }

  /** Go's Client: credentials, the parent branch's name and the cleanup flag,
      none of which its methods change, and the remote project it talks to. */
  class Client {
    const http: Remote
    const clock: Clock
    const Key: string
    const ProjectID: string
    const Branch: string
    const NoCleanup: bool

    constructor (http: Remote, clock: Clock, key: string, projectId: string, branch: string, noCleanup: bool)
      ensures this.http == http && this.clock == clock
      ensures Key == key && ProjectID == projectId && Branch == branch && NoCleanup == noCleanup
    {
      this.http := http;
      this.clock := clock;
      Key := key;
      ProjectID := projectId;
      Branch := branch;
      NoCleanup := noCleanup;
    }

    method GetBranches(code: int) returns (r: Outcome<Option<seq<Registry.Branch>>>)
      modifies http
      ensures http.branches == old(http.branches)
      ensures http.requests == old(http.requests) + [Request(GET, BranchesURL(ProjectID), None)]
      ensures r == ListOutcome(old(http.branches), code)
    {
      http.Receive(Request(GET, BranchesURL(ProjectID), None));
      if code == NotFound {
        return Done(None);
      }
      var v := ValidateStatus(code, [OK]);
      if v.Fatal? {
        return Fatal(v.failure);
      }
      r := Done(Some(http.branches));
    }

    method GetBranch(name: string, code: int) returns (r: Outcome<Option<Registry.Branch>>)
      modifies http
      ensures http.branches == old(http.branches)
      ensures http.requests == old(http.requests) + [Request(GET, BranchURL(ProjectID, name), None)]
      ensures r == GetBranchOutcome(old(http.branches), name, code)
    {
      http.Receive(Request(GET, BranchURL(ProjectID, name), None));
      if code == NotFound {
        return Done(None);
      }
      var v := ValidateStatus(code, [OK]);
      if v.Fatal? {
        return Fatal(v.failure);
      }
      var i := Locate(http.branches, name);
      if i.None? {
        return Fatal(Undecodable);
      }
      r := Done(Some(http.branches[i.value]));
    }

    method GetBranchByName(name: string, code: int) returns (r: Outcome<Option<Registry.Branch>>)
      modifies http
      ensures http.branches == old(http.branches)
      ensures http.requests == old(http.requests) + [Request(GET, BranchesURL(ProjectID), None)]
      ensures r == ByNameOutcome(old(http.branches), name, code)
    {
      var listed := GetBranches(code);
      if listed.Fatal? {
        return Fatal(listed.failure);
      }
      if listed.value.None? {
        return Fatal(NilDereference);
      }
      var found := FindByName(listed.value.value, name);
      r := Done(found);
    }

    method CreateBranch(name: string, listCode: int, answer: nat -> int, newId: string, uris: seq<ConnectionURI>)
      returns (r: Outcome<BranchCreated>)
      modifies http, clock
      ensures var run := CreateRun(ProjectID, old(http.branches), Branch, name, listCode, answer, newId, uris);
        r == run.outcome && http.branches == run.branches &&
        http.requests == old(http.requests) + run.sent && clock.slept == old(clock.slept) + run.slept
    {
      var parent := GetBranchByName(Branch, listCode);
      if parent.Fatal? {
        return Fatal(parent.failure);
      }
      if parent.value.None? {
        return Fatal(ParentNotFound(name, Branch));
      }
      var p := parent.value.value;
      CreateRunWithParent(ProjectID, old(http.branches), Branch, name, listCode, answer, newId, uris, p);
      r := PostUntilUnlocked(name, p, answer, newId, uris);
    }

    /** CreateBranch's retry loop, for a resolved parent. */
    method PostUntilUnlocked(name: string, parent: Registry.Branch, answer: nat -> int, newId: string, uris: seq<ConnectionURI>)
      returns (r: Outcome<BranchCreated>)
      modifies http, clock
      ensures var run := AttemptsRun(ProjectID, old(http.branches), name, parent, answer, newId, uris);
        r == run.outcome && http.branches == run.branches &&
        http.requests == old(http.requests) + run.sent && clock.slept == old(clock.slept) + run.slept
    {
      ghost var post := NewCreateBranchRequest(ProjectID, NewBranch(name, parent.id));
      var retry := FirstDelay;
      var attempt: nat := 0;
      while retry <= LastDelay
        invariant attempt <= MaxAttempts && retry == Delay(attempt)
        invariant forall j :: 0 <= j < attempt ==> answer(j) == Locked
        invariant http.branches == old(http.branches)
        invariant http.requests == old(http.requests) + Repeat(post, attempt)
        invariant clock.slept == old(clock.slept) + Delays(attempt)
        decreases LastDelay - retry
      {
        var create := NewBranch(name, parent.id);
        http.Receive(NewCreateBranchRequest(ProjectID, create));
        var code := answer(attempt);
        if code == Locked {
          clock.Sleep(retry);
          retry := retry + Step;
          attempt := attempt + 1;
          continue;
        }
        AttemptDecides(ProjectID, old(http.branches), name, parent, answer, newId, uris, attempt);
        var b := Registry.Branch(newId, name, parent.id);
        if code == OK || code == Created {
          http.Add(b);
        }
        var v := ValidateStatus(code, [OK, Created]);
        if v.Fatal? {
          return Fatal(v.failure);
        }
        return Done(BranchCreated(b, uris));
      }
      AttemptsExhausted(ProjectID, old(http.branches), name, parent, answer, newId, uris);
      return Fatal(RetriesExhausted);
    }

    method DeleteBranch(name: string, code: int) returns (r: Outcome<()>)
      modifies http
      ensures var run := DeleteRun(ProjectID, old(http.branches), name, code);
        r == run.outcome && http.branches == run.branches && http.requests == old(http.requests) + run.sent
    {
      http.Receive(Request(DELETE, BranchURL(ProjectID, name), None));
      if code == OK {
        http.Remove(name);
      }
      var v := ValidateStatus(code, [OK]);
      if v.Fatal? {
        return Fatal(v.failure);
      }
      return Done(());
    }

    method ForcedCreateBranch(name: string, rep: Replies) returns (r: Outcome<BranchCreated>)
      modifies http, clock
      ensures var run := ForcedCreateRun(ProjectID, old(http.branches), Branch, name, rep);
        r == run.outcome && http.branches == run.branches &&
        http.requests == old(http.requests) + run.sent && clock.slept == old(clock.slept) + run.slept
    {
      ghost var c := ClearStale(ProjectID, http.branches, name, rep.getCode, rep.deleteCode);
      var branch := GetBranch(name, rep.getCode);
      if branch.Fatal? {
        ForcedCreateStops(ProjectID, old(http.branches), Branch, name, rep);
        return Fatal(branch.failure);
      }
      if branch.value.Some? {
        ghost var d := DeleteRun(ProjectID, http.branches, name, rep.deleteCode);
        assert c == Run(d.outcome, d.branches, [Request(GET, BranchURL(ProjectID, name), None)] + d.sent, [], []);
        var deleted := DeleteBranch(name, rep.deleteCode);
        if deleted.Fatal? {
          ForcedCreateStops(ProjectID, old(http.branches), Branch, name, rep);
          return Fatal(deleted.failure);
        }
        assert http.requests == old(http.requests) + c.sent;
      } else {
        assert c == Run(Done(()), old(http.branches), [Request(GET, BranchURL(ProjectID, name), None)], [], []);
      }
      assert c.outcome.Done? && http.branches == c.branches && http.requests == old(http.requests) + c.sent;
      ForcedCreateAfterClear(ProjectID, old(http.branches), Branch, name, rep);
      r := CreateBranch(name, rep.listCode, rep.createCodes, rep.newId, rep.uris);
    }

    method UsingBranch(name: string, callback: Callback, rep: Replies) returns (r: Outcome<()>)
      modifies http, clock, callback
      ensures var run := UsingBranchRun(ProjectID, old(http.branches), Branch, NoCleanup, name, rep);
        r == run.outcome && http.branches == run.branches &&
        http.requests == old(http.requests) + run.sent && clock.slept == old(clock.slept) + run.slept &&
        callback.received == old(callback.received) + run.handed
      ensures var f := ForcedCreateRun(ProjectID, old(http.branches), Branch, name, rep);
        callback.seen == old(callback.seen) + (if f.outcome.Done? && |rep.uris| > 0 then [f.branches] else [])
    {
      var created := ForcedCreateBranch(name, rep);
      if created.Fatal? {
        return Fatal(created.failure);
      }
      if |created.value.connectionURIs| == 0 {
        return Fatal(IndexOutOfRange);
      }
      callback.Call(created.value.connectionURIs[0], http.branches);
      if !NoCleanup {
        var deleted := DeleteBranch(created.value.branch.id, rep.cleanupCode);
        if deleted.Fatal? {
          return Fatal(deleted.failure);
        }
      }
      return Done(());
    }

    method UsingTestBranch(hostname: string, testName: string, callback: Callback, rep: Replies) returns (r: Outcome<()>)
      modifies http, clock, callback
      ensures var run := UsingBranchRun(ProjectID, old(http.branches), Branch, NoCleanup, TestBranchName(hostname, testName), rep);
        r == run.outcome && http.branches == run.branches &&
        http.requests == old(http.requests) + run.sent && clock.slept == old(clock.slept) + run.slept &&
        callback.received == old(callback.received) + run.handed
      ensures var f := ForcedCreateRun(ProjectID, old(http.branches), Branch, TestBranchName(hostname, testName), rep);
        callback.seen == old(callback.seen) + (if f.outcome.Done? && |rep.uris| > 0 then [f.branches] else [])
    {
      var branch := TestBranchName(hostname, testName);
      r := UsingBranch(branch, callback, rep);
    }
  }
}
