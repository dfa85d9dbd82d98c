/** What each operation of the client does, as functions of the registry
    before the call and of the service's answers.

    Each function returns a Run: the outcome, the registry afterwards, the
    requests sent, the sleeps taken and the connection URIs handed to the
    caller's callback, in order.  The methods of NeonTestDb.Client are
    proved to have exactly these effects; the lemmas below state what the
    lifecycle promises about them. */
module Lifecycle {
  import opened Results
  import opened HttpStatus
  import opened Registry
  import opened Wire
  import opened Retry

  /** The service's answers to the requests of one call chain: a status
      code per request (per attempt for the POSTs), and what a successful
      POST hands back, the new branch's identifier and connection URIs. */
  datatype Replies = Replies(
    getCode: int,                // GET /branches/{name} in ForcedCreateBranch
    deleteCode: int,             // DELETE /branches/{name} in ForcedCreateBranch
    listCode: int,               // GET /branches in GetBranchByName
    createCodes: nat -> int,     // POST /branches, attempt k
    newId: string,
    uris: seq<ConnectionURI>,
    cleanupCode: int)            // DELETE /branches/{id} in UsingBranch

  datatype Run<T> = Run(outcome: Outcome<T>, branches: seq<Branch>, sent: seq<Request>, slept: seq<int>, handed: seq<ConnectionURI>)

  /** GET /branches/{seg} answers truthfully: 200 when the segment addresses
      a branch, 404 when it addresses none. */
  predicate Truthful(bs: seq<Branch>, seg: string, code: int) {
    code == (if Locate(bs, seg).Some? then OK else NotFound)
  }

  /** GetBranch: absent on 404; on 200 the branch the segment addresses (a 200
      with no branch behind it has no body, which does not decode). */
  function GetBranchOutcome(bs: seq<Branch>, seg: string, code: int): (r: Outcome<Option<Branch>>)
    ensures r == Done(None) <==> code == NotFound
    ensures r.Done? && r.value.Some? <==> code == OK && Locate(bs, seg).Some?
    ensures r.Done? && r.value.Some? ==> r.value.value == bs[Locate(bs, seg).value]
    ensures r.Fatal? && code != OK ==> r.failure == UnexpectedStatus(code)
  {
    match CheckFound(code)
    case Fatal(f) => Fatal(f)
    case Done(present) =>
      if !present then Done(None)
      else match Locate(bs, seg)
        case None => Fatal(Undecodable)
        case Some(i) => Done(Some(bs[i]))
  }

  /** GetBranches: nil on 404, the listing on 200. */
  function ListOutcome(bs: seq<Branch>, code: int): (r: Outcome<Option<seq<Branch>>>)
    ensures r == Done(None) <==> code == NotFound
    ensures r == Done(Some(bs)) <==> code == OK
    ensures r.Fatal? <==> code != NotFound && code != OK
  {
    match CheckFound(code)
    case Fatal(f) => Fatal(f)
    case Done(present) => if present then Done(Some(bs)) else Done(None)
  }

  /** GetBranchByName: the first listed branch of that display name.  A 404
      listing is a nil *Branches, whose field the scan dereferences. */
  function ByNameOutcome(bs: seq<Branch>, name: string, code: int): (r: Outcome<Option<Branch>>)
    ensures code == OK ==> r.Done?
    ensures code == NotFound ==> r == Fatal(NilDereference)
    ensures r.Done? && r.value.Some? ==> code == OK && FirstNamed(bs, name).Some? && r.value.value == bs[FirstNamed(bs, name).value]
    ensures r.Done? && r.value.None? ==> code == OK && forall b :: b in bs ==> b.name != name
  {
    match ListOutcome(bs, code)
    case Fatal(f) => Fatal(f)
    case Done(listed) =>
      match listed
      case None => Fatal(NilDereference)
      case Some(all) =>
        match FirstNamed(all, name)
        case None => Done(None)
        case Some(i) => Done(Some(all[i]))
  }

  /** DeleteBranch(seg): on 200 every branch the segment addresses is gone. */
  function DeleteRun(projectId: string, bs: seq<Branch>, seg: string, code: int): (r: Run<()>)
    ensures r.sent == [Request(DELETE, BranchURL(projectId, seg), None)]
    ensures r.outcome.Done? <==> code == OK
    ensures r.outcome.Fatal? ==> r.outcome.failure == UnexpectedStatus(code) && r.branches == bs
    ensures r.outcome.Done? ==> forall x :: x in r.branches <==> x in bs && !Addresses(x, seg)
    ensures r.slept == [] && r.handed == []
  {
    var sent := [Request(DELETE, BranchURL(projectId, seg), None)];
    match CheckDeleted(code)
    case Fatal(f) => Run(Fatal(f), bs, sent, [], [])
    case Done(_) => Run(Done(()), Without(bs, seg), sent, [], [])
  }

  /** CreateBranch(name): look the parent up by display name, then make the
      attempts. */
  function CreateRun(projectId: string, bs: seq<Branch>, parentName: string, name: string,
                     listCode: int, answer: nat -> int, newId: string, uris: seq<ConnectionURI>): (r: Run<BranchCreated>)
    ensures 1 <= |r.sent| <= MaxAttempts + 1 && r.sent[0] == Request(GET, BranchesURL(projectId), None)
    ensures r.outcome.Fatal? ==> r.branches == bs
    ensures r.outcome.Done? ==>
      var b := r.outcome.value.branch;
      b == Branch(newId, name, b.parentId) && r.branches == bs + [b] && r.outcome.value.connectionURIs == uris &&
      listCode == OK && FirstNamed(bs, parentName).Some? && b.parentId == bs[FirstNamed(bs, parentName).value].id
    ensures r.handed == []
  {
    var list := [Request(GET, BranchesURL(projectId), None)];
    match ByNameOutcome(bs, parentName, listCode)
    case Fatal(f) => Run(Fatal(f), bs, list, [], [])
    case Done(found) =>
      match found
      case None => Run(Fatal(ParentNotFound(name, parentName)), bs, list, [], [])
      case Some(parent) =>
        var a := AttemptsRun(projectId, bs, name, parent, answer, newId, uris);
        Run(a.outcome, a.branches, list + a.sent, a.slept, [])
  }

  /** CreateBranch's loop: POST the same request until an answer other than
      Locked, or until the loop header gives up. */
  function AttemptsRun(projectId: string, bs: seq<Branch>, name: string, parent: Branch,
                       answer: nat -> int, newId: string, uris: seq<ConnectionURI>): (r: Run<BranchCreated>)
    ensures 1 <= |r.sent| <= MaxAttempts
    ensures r.sent == Repeat(NewCreateBranchRequest(projectId, NewBranch(name, parent.id)), |r.sent|)
    ensures r.slept == Delays(|r.slept|)
    ensures forall j :: 0 <= j < |r.slept| ==> answer(j) == Locked
    ensures r.outcome != Fatal(RetriesExhausted) ==> |r.sent| == |r.slept| + 1
    ensures r.outcome.Done? ==> |r.sent| == |r.slept| + 1 && (answer(|r.slept|) == OK || answer(|r.slept|) == Created)
    ensures r.outcome.Done? ==> r.outcome.value == BranchCreated(Branch(newId, name, parent.id), uris) && r.branches == bs + [r.outcome.value.branch]
    ensures r.outcome.Fatal? ==> r.branches == bs
    ensures r.outcome == Fatal(RetriesExhausted) <==> |r.slept| == MaxAttempts
    ensures r.handed == []
  {
    var post := NewCreateBranchRequest(projectId, NewBranch(name, parent.id));
    var i := FirstUnlocked(answer, 0);
    if i == MaxAttempts then
      Run(Fatal(RetriesExhausted), bs, Repeat(post, MaxAttempts), Delays(MaxAttempts), [])
    else if ClassifyCreate(answer(i)) == Accept then
      var b := Branch(newId, name, parent.id);
      Run(Done(BranchCreated(b, uris)), bs + [b], Repeat(post, i + 1), Delays(i), [])
    else
      Run(Fatal(UnexpectedStatus(answer(i))), bs, Repeat(post, i + 1), Delays(i), [])
  }

  /** The first half of ForcedCreateBranch: if GET finds the name, delete by name. */
  function ClearStale(projectId: string, bs: seq<Branch>, name: string, getCode: int, deleteCode: int): (r: Run<()>)
    ensures r.outcome.Done? <==> getCode == NotFound || (getCode == OK && Locate(bs, name).Some? && deleteCode == OK)
    ensures getCode != OK && getCode != NotFound ==> r.outcome == Fatal(UnexpectedStatus(getCode)) && r.branches == bs
    ensures 1 <= |r.sent| <= 2 && r.sent[0] == Request(GET, BranchURL(projectId, name), None)
    ensures |r.sent| == 2 <==> getCode == OK && Locate(bs, name).Some?
    ensures |r.sent| == 2 ==> r.sent[1] == Request(DELETE, BranchURL(projectId, name), None)
    ensures forall x :: x in r.branches ==> x in bs
    ensures forall x :: x in bs && !Addresses(x, name) ==> x in r.branches
    ensures r.slept == [] && r.handed == []
  {
    var get := [Request(GET, BranchURL(projectId, name), None)];
    match GetBranchOutcome(bs, name, getCode)
    case Fatal(f) => Run(Fatal(f), bs, get, [], [])
    case Done(found) =>
      if found.None? then Run(Done(()), bs, get, [], [])
      else
        var d := DeleteRun(projectId, bs, name, deleteCode);
        Run(d.outcome, d.branches, get + d.sent, [], [])
  }

  /** ForcedCreateBranch(name): clear the name, then create it. */
  function ForcedCreateRun(projectId: string, bs: seq<Branch>, parentName: string, name: string, rep: Replies): (r: Run<BranchCreated>)
    ensures |r.sent| > 0 && r.sent[0] == Request(GET, BranchURL(projectId, name), None)
    ensures r.outcome.Done? ==>
      var b := r.outcome.value.branch;
      b.name == name && b.id == rep.newId && r.outcome.value.connectionURIs == rep.uris &&
      |r.branches| > 0 && r.branches[|r.branches| - 1] == b &&
      (forall x :: x in r.branches ==> x in bs || x == b) &&
      (forall x :: x in bs && !Addresses(x, name) ==> x in r.branches)
    ensures r.outcome.Fatal? ==> forall x :: x in r.branches ==> x in bs
    ensures var c := ClearStale(projectId, bs, name, rep.getCode, rep.deleteCode);
      c.outcome.Fatal? ==> r.outcome == Fatal(c.outcome.failure) && r.sent == c.sent && r.slept == []
    ensures r.handed == []
  {
    var c := ClearStale(projectId, bs, name, rep.getCode, rep.deleteCode);
    if c.outcome.Fatal? then Run(Fatal(c.outcome.failure), c.branches, c.sent, [], [])
    else
      var k := CreateRun(projectId, c.branches, parentName, name, rep.listCode, rep.createCodes, rep.newId, rep.uris);
      Run(k.outcome, k.branches, c.sent + k.sent, k.slept, [])
  }

  /** UsingBranch(name, do): force-create, hand URI 0 to the callback, then
      delete by the new branch's identifier unless cleanup is suppressed. */
  function UsingBranchRun(projectId: string, bs: seq<Branch>, parentName: string, noCleanup: bool,
                          name: string, rep: Replies): (r: Run<()>)
    ensures |r.handed| <= 1
    ensures r.handed != [] <==> ForcedCreateRun(projectId, bs, parentName, name, rep).outcome.Done? && |rep.uris| > 0
    ensures r.outcome.Done? ==> |rep.uris| > 0 && r.handed == [rep.uris[0]]
    ensures r.handed != [] ==> |rep.uris| > 0 && r.handed == [rep.uris[0]]
    ensures noCleanup ==> r.branches == ForcedCreateRun(projectId, bs, parentName, name, rep).branches
    ensures !noCleanup && r.outcome.Done? ==>
      (forall x :: x in r.branches ==> x in bs) &&
      (forall x :: x in bs && !Addresses(x, name) && !Addresses(x, rep.newId) ==> x in r.branches)
    ensures !noCleanup && r.outcome.Done? ==> |r.sent| > 0 && r.sent[|r.sent| - 1] == Request(DELETE, BranchURL(projectId, rep.newId), None)
  {
    var f := ForcedCreateRun(projectId, bs, parentName, name, rep);
    match f.outcome
    case Fatal(e) => Run(Fatal(e), f.branches, f.sent, f.slept, [])
    case Done(created) =>
      if |created.connectionURIs| == 0 then Run(Fatal(IndexOutOfRange), f.branches, f.sent, f.slept, [])
      else
        var handed := [created.connectionURIs[0]];
        if noCleanup then Run(Done(()), f.branches, f.sent, f.slept, handed)
        else
          var d := DeleteRun(projectId, f.branches, created.branch.id, rep.cleanupCode);
          Run(d.outcome, d.branches, f.sent + d.sent, f.slept, handed)
  }

  // ---------------------------------------------------------------------
  // How the runs unfold, step by step (used by the methods' proofs)

  lemma CreateRunWithParent(projectId: string, bs: seq<Branch>, parentName: string, name: string,
                            listCode: int, answer: nat -> int, newId: string, uris: seq<ConnectionURI>, parent: Branch)
    requires ByNameOutcome(bs, parentName, listCode) == Done(Some(parent))
    ensures var a := AttemptsRun(projectId, bs, name, parent, answer, newId, uris);
      CreateRun(projectId, bs, parentName, name, listCode, answer, newId, uris)
        == Run(a.outcome, a.branches, [Request(GET, BranchesURL(projectId), None)] + a.sent, a.slept, [])
  {
  }

  /** Attempt k decides when every earlier attempt was Locked and it was not. */
  lemma AttemptDecides(projectId: string, bs: seq<Branch>, name: string, parent: Branch,
                       answer: nat -> int, newId: string, uris: seq<ConnectionURI>, k: nat)
    requires k < MaxAttempts
    requires forall j :: 0 <= j < k ==> answer(j) == Locked
    requires answer(k) != Locked
    ensures var a := AttemptsRun(projectId, bs, name, parent, answer, newId, uris);
      var post := NewCreateBranchRequest(projectId, NewBranch(name, parent.id));
      var b := Branch(newId, name, parent.id);
      a.sent == Repeat(post, k + 1) && a.slept == Delays(k) && a.handed == [] &&
      (answer(k) == OK || answer(k) == Created ==> a.outcome == Done(BranchCreated(b, uris)) && a.branches == bs + [b]) &&
      (answer(k) != OK && answer(k) != Created ==> a.outcome == Fatal(UnexpectedStatus(answer(k))) && a.branches == bs)
  {
    LockClears(answer, k);
  }

  lemma AttemptsExhausted(projectId: string, bs: seq<Branch>, name: string, parent: Branch,
                          answer: nat -> int, newId: string, uris: seq<ConnectionURI>)
    requires forall j :: 0 <= j < MaxAttempts ==> answer(j) == Locked
    ensures var a := AttemptsRun(projectId, bs, name, parent, answer, newId, uris);
      a == Run(Fatal(RetriesExhausted), bs, Repeat(NewCreateBranchRequest(projectId, NewBranch(name, parent.id)), MaxAttempts),
               Delays(MaxAttempts), [])
  {
  }

  lemma ForcedCreateStops(projectId: string, bs: seq<Branch>, parentName: string, name: string, rep: Replies)
    requires ClearStale(projectId, bs, name, rep.getCode, rep.deleteCode).outcome.Fatal?
    ensures var c := ClearStale(projectId, bs, name, rep.getCode, rep.deleteCode);
      ForcedCreateRun(projectId, bs, parentName, name, rep) == Run(Fatal(c.outcome.failure), c.branches, c.sent, [], [])
  {
  }

  lemma ForcedCreateAfterClear(projectId: string, bs: seq<Branch>, parentName: string, name: string, rep: Replies)
    requires ClearStale(projectId, bs, name, rep.getCode, rep.deleteCode).outcome.Done?
    ensures var c := ClearStale(projectId, bs, name, rep.getCode, rep.deleteCode);
      var k := CreateRun(projectId, c.branches, parentName, name, rep.listCode, rep.createCodes, rep.newId, rep.uris);
      ForcedCreateRun(projectId, bs, parentName, name, rep) == Run(k.outcome, k.branches, c.sent + k.sent, k.slept, [])
  {
  }

  // ---------------------------------------------------------------------
  // Properties

  /** CreateBranch stops before any POST when the parent is missing. */
  lemma CreateNeedsParent(projectId: string, bs: seq<Branch>, parentName: string, name: string,
                          listCode: int, answer: nat -> int, newId: string, uris: seq<ConnectionURI>)
    requires listCode == OK
    requires forall b :: b in bs ==> b.name != parentName
    ensures var r := CreateRun(projectId, bs, parentName, name, listCode, answer, newId, uris);
      r.outcome == Fatal(ParentNotFound(name, parentName)) && r.branches == bs &&
      r.sent == [Request(GET, BranchesURL(projectId), None)]
  {
  }

  /** With the parent found, every POST names the new branch and the
      parent's identifier and asks for one read-write endpoint; every
      attempt before the last was answered Locked and was followed by its
      sleep; the last attempt decides; at most MaxAttempts are made. */
  lemma CreateAttempts(projectId: string, bs: seq<Branch>, parentName: string, name: string,
                       listCode: int, answer: nat -> int, newId: string, uris: seq<ConnectionURI>)
    requires listCode == OK && FirstNamed(bs, parentName).Some?
    ensures var r := CreateRun(projectId, bs, parentName, name, listCode, answer, newId, uris);
      var parent := bs[FirstNamed(bs, parentName).value];
      var posts := |r.sent| - 1;
      1 <= posts <= MaxAttempts &&
      r.sent[0] == Request(GET, BranchesURL(projectId), None) &&
      (forall q :: 1 <= q < |r.sent| ==>
         r.sent[q].body == Some(CreateBranchRequest([CreateEndpoint("read_write")], NewBranch(name, parent.id)))) &&
      (forall j :: 0 <= j < posts - 1 ==> answer(j) == Locked) &&
      r.slept == Delays(|r.slept|) &&
      (r.outcome.Done? ==> |r.slept| == posts - 1 && (answer(posts - 1) == OK || answer(posts - 1) == Created)) &&
      (r.outcome != Fatal(RetriesExhausted) ==> answer(posts - 1) != Locked) &&
      ((answer(posts - 1) == OK || answer(posts - 1) == Created) ==> r.outcome.Done?) &&
      (r.outcome == Fatal(RetriesExhausted) <==> forall j :: 0 <= j < MaxAttempts ==> answer(j) == Locked)
  {
    var r := CreateRun(projectId, bs, parentName, name, listCode, answer, newId, uris);
    var i := FirstUnlocked(answer, 0);
    if i < MaxAttempts {
      assert answer(i) != Locked;
    }
  }

  /** After the GET/DELETE phase of ForcedCreateBranch succeeds, nothing in
      the registry answers to the name, so the POST cannot clash with an
      existing branch of that name; and nothing was added. */
  lemma ClearStaleFreesName(projectId: string, bs: seq<Branch>, name: string, getCode: int, deleteCode: int)
    requires Truthful(bs, name, getCode)
    ensures var c := ClearStale(projectId, bs, name, getCode, deleteCode);
      (forall x :: x in c.branches ==> x in bs) &&
      (c.outcome.Done? ==> (forall x :: x in c.branches ==> !Addresses(x, name)) && NamedCount(c.branches, name) == 0)
  {
    var c := ClearStale(projectId, bs, name, getCode, deleteCode);
    if Locate(bs, name).None? {
      assert c.branches == bs;
      forall x | x in bs ensures !Addresses(x, name) {
        var j :| 0 <= j < |bs| && bs[j] == x;
      }
    }
    NamedCountZero(c.branches, name);
  }

  /** ForcedCreateBranch's first phase deletes by the name exactly when GET
      finds a branch under it; otherwise it only asks and changes nothing. */
  lemma ClearStaleDeletesByName(projectId: string, bs: seq<Branch>, name: string, getCode: int, deleteCode: int)
    requires Truthful(bs, name, getCode)
    ensures var c := ClearStale(projectId, bs, name, getCode, deleteCode);
      var get := Request(GET, BranchURL(projectId, name), None);
      (Locate(bs, name).Some? ==>
         c.sent == [get, Request(DELETE, BranchURL(projectId, name), None)] && (c.outcome.Done? <==> deleteCode == OK)) &&
      (Locate(bs, name).None? ==> c == Run(Done(()), bs, [get], [], []))
  {
  }

  /** ForcedCreateBranch leaves exactly one branch of that name, the one it
      created, last in the listing and addressed by the name; its parent is
      a branch of the configured parent name that existed before the call. */
  lemma ForcedCreateLeavesOne(projectId: string, bs: seq<Branch>, parentName: string, name: string, rep: Replies)
    requires Truthful(bs, name, rep.getCode)
    ensures var r := ForcedCreateRun(projectId, bs, parentName, name, rep);
      r.outcome.Done? ==>
        var b := r.outcome.value.branch;
        b.name == name && b.id == rep.newId &&
        NamedCount(r.branches, name) == 1 &&
        |r.branches| > 0 && Locate(r.branches, name) == Some(|r.branches| - 1) && r.branches[|r.branches| - 1] == b &&
        (exists p :: p in bs && p.name == parentName && p.id == b.parentId)
  {
    var c := ClearStale(projectId, bs, name, rep.getCode, rep.deleteCode);
    ClearStaleFreesName(projectId, bs, name, rep.getCode, rep.deleteCode);
    var r := ForcedCreateRun(projectId, bs, parentName, name, rep);
    if r.outcome.Done? {
      var k := CreateRun(projectId, c.branches, parentName, name, rep.listCode, rep.createCodes, rep.newId, rep.uris);
      var i := FirstNamed(c.branches, parentName).value;
      var p := c.branches[i];
      assert p in c.branches;
      var b := r.outcome.value.branch;
      assert r.branches == c.branches + [b];
      AppendOnly(c.branches, b);
    }
  }

  /** A branch of the name left over from an earlier run that never cleaned
      up (it aborted, or NoCleanup was set): the next ForcedCreateBranch finds
      it by name, deletes it, and again leaves exactly one branch of that
      name. */
  lemma ForcedCreateTwice(projectId: string, bs: seq<Branch>, parentName: string, name: string, rep1: Replies, rep2: Replies)
    requires Truthful(bs, name, rep1.getCode)
    requires Truthful(ForcedCreateRun(projectId, bs, parentName, name, rep1).branches, name, rep2.getCode)
    ensures var r1 := ForcedCreateRun(projectId, bs, parentName, name, rep1);
      var r2 := ForcedCreateRun(projectId, r1.branches, parentName, name, rep2);
      r1.outcome.Done? ==>
        GetBranchOutcome(r1.branches, name, rep2.getCode) == Done(Some(r1.outcome.value.branch)) &&
        (ClearStale(projectId, r1.branches, name, rep2.getCode, rep2.deleteCode).outcome.Done? ==>
           r1.outcome.value.branch !in ClearStale(projectId, r1.branches, name, rep2.getCode, rep2.deleteCode).branches) &&
        (r2.outcome.Done? ==> NamedCount(r2.branches, name) == 1)
  {
    var r1 := ForcedCreateRun(projectId, bs, parentName, name, rep1);
    ForcedCreateLeavesOne(projectId, bs, parentName, name, rep1);
    ForcedCreateLeavesOne(projectId, r1.branches, parentName, name, rep2);
    ClearStaleFreesName(projectId, r1.branches, name, rep2.getCode, rep2.deleteCode);
  }

  /** Without NoCleanup, a UsingBranch that returns leaves nothing that
      answers to the name, and the callback got URI 0 once. */
  lemma UsingBranchCleansUp(projectId: string, bs: seq<Branch>, parentName: string, name: string, rep: Replies)
    requires Truthful(bs, name, rep.getCode)
    ensures var r := UsingBranchRun(projectId, bs, parentName, false, name, rep);
      r.outcome.Done? ==>
        |rep.uris| > 0 && r.handed == [rep.uris[0]] &&
        Locate(r.branches, name).None? && NamedCount(r.branches, name) == 0
  {
    var c := ClearStale(projectId, bs, name, rep.getCode, rep.deleteCode);
    ClearStaleFreesName(projectId, bs, name, rep.getCode, rep.deleteCode);
    var f := ForcedCreateRun(projectId, bs, parentName, name, rep);
    var r := UsingBranchRun(projectId, bs, parentName, false, name, rep);
    if r.outcome.Done? {
      var b := f.outcome.value.branch;
      assert f.branches == c.branches + [b];
      assert r.branches == Without(f.branches, b.id);
      forall x | x in r.branches ensures !Addresses(x, name) {
        assert x in f.branches && x != b;
        assert x in c.branches;
      }
      NamedCountZero(r.branches, name);
    }
  }

  /** The test's loop: two UsingBranch runs in a row under the same name with
      cleanup on.  The first one deleted its branch by identifier, so the
      second one's GET answers 404 and nothing stale is deleted; after it,
      again nothing answers to the name. */
  lemma UsingBranchTwice(projectId: string, bs: seq<Branch>, parentName: string, name: string, rep1: Replies, rep2: Replies)
    requires Truthful(bs, name, rep1.getCode)
    requires Truthful(UsingBranchRun(projectId, bs, parentName, false, name, rep1).branches, name, rep2.getCode)
    ensures var r1 := UsingBranchRun(projectId, bs, parentName, false, name, rep1);
      var r2 := UsingBranchRun(projectId, r1.branches, parentName, false, name, rep2);
      r1.outcome.Done? ==>
        rep2.getCode == NotFound &&
        ClearStale(projectId, r1.branches, name, rep2.getCode, rep2.deleteCode)
          == Run(Done(()), r1.branches, [Request(GET, BranchURL(projectId, name), None)], [], []) &&
        (r2.outcome.Done? ==> Locate(r2.branches, name).None? && NamedCount(r2.branches, name) == 0)
  {
    var r1 := UsingBranchRun(projectId, bs, parentName, false, name, rep1);
    UsingBranchCleansUp(projectId, bs, parentName, name, rep1);
    if r1.outcome.Done? {
      UsingBranchCleansUp(projectId, r1.branches, parentName, name, rep2);
    }
  }

  /** Without NoCleanup the last request is a DELETE of the new branch by its
      identifier, not by its name. */
  lemma UsingBranchDeletesById(projectId: string, bs: seq<Branch>, parentName: string, name: string, rep: Replies)
    ensures var f := ForcedCreateRun(projectId, bs, parentName, name, rep);
      var r := UsingBranchRun(projectId, bs, parentName, false, name, rep);
      f.outcome.Done? && |rep.uris| > 0 ==>
        f.outcome.value.branch.id == rep.newId &&
        r.sent == f.sent + [Request(DELETE, BranchURL(projectId, rep.newId), None)] &&
        (r.outcome.Done? <==> rep.cleanupCode == OK)
  {
  }

  /** With NoCleanup the registry is left as ForcedCreateBranch left it: the
      new branch persists and still answers to the name. */
  lemma UsingBranchKeeps(projectId: string, bs: seq<Branch>, parentName: string, name: string, rep: Replies)
    requires Truthful(bs, name, rep.getCode)
    ensures var f := ForcedCreateRun(projectId, bs, parentName, name, rep);
      var r := UsingBranchRun(projectId, bs, parentName, true, name, rep);
      r.branches == f.branches && r.sent == f.sent &&
      (r.outcome.Done? ==>
        r.handed == [rep.uris[0]] &&
        GetBranchOutcome(r.branches, name, OK) == Done(Some(f.outcome.value.branch)))
  {
    ForcedCreateLeavesOne(projectId, bs, parentName, name, rep);
  }
}
