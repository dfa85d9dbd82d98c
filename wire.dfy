/** The requests the client sends: their URLs, verbs and, for POST, the body.

    Headers (Accept, Authorization, Content-Type) and the JSON encoding are
    not part of this model; a request is its verb, its URL and its body. */
module Wire {
  import opened Results

  const ApiProjects: string := "https://console.neon.tech/api/v2/projects/"

  /** `BranchesURL`: the collection of a project's branches. */
  function BranchesURL(projectId: string): (r: string)
    ensures |r| == |ApiProjects| + |projectId| + |"/branches"|
    ensures r[..|ApiProjects|] == ApiProjects
    ensures r[|ApiProjects|..|ApiProjects| + |projectId|] == projectId
    ensures r[|ApiProjects| + |projectId|..] == "/branches"
  {
    ApiProjects + projectId + "/branches"
  }

  /** `BranchURL`: one branch, addressed by a path segment. */
  function BranchURL(projectId: string, branch: string): (r: string)
    ensures r == BranchesURL(projectId) + "/" + branch
  {
    ApiProjects + projectId + "/branches/" + branch
  }

  /** The path segment a branch URL of this project carries, if it is one. */
  function SegmentOf(projectId: string, url: string): Option<string> {
    var prefix := BranchesURL(projectId) + "/";
    if |prefix| <= |url| && url[..|prefix|] == prefix then Some(url[|prefix|..]) else None
  }

  lemma BranchURLSegment(projectId: string, branch: string)
    ensures SegmentOf(projectId, BranchURL(projectId, branch)) == Some(branch)
  {
    var prefix := BranchesURL(projectId) + "/";
    var url := BranchURL(projectId, branch);
    assert url == prefix + branch;
    assert url[..|prefix|] == prefix;
    assert url[|prefix|..] == branch;
  }

  /** Distinct branches are distinct URLs. */
  lemma BranchURLInjective(projectId: string, b1: string, b2: string)
    requires BranchURL(projectId, b1) == BranchURL(projectId, b2)
    ensures b1 == b2
  {
    BranchURLSegment(projectId, b1);
    BranchURLSegment(projectId, b2);
  }

  datatype Verb = GET | POST | DELETE

  /** Go's `CreateEndpoint`. */
  datatype CreateEndpoint = CreateEndpoint(kind: string)

  /** Go's `CreateBranch` request struct: the new branch's name and parent. */
  datatype NewBranch = NewBranch(name: string, parentId: string)

  /** Go's `CreateBranchRequest`. */
  datatype CreateBranchRequest = CreateBranchRequest(endpoints: seq<CreateEndpoint>, branch: NewBranch)

  datatype Request = Request(verb: Verb, url: string, body: Option<CreateBranchRequest>)

  /** `NewCreateBranchRequest`: a POST to the branches collection asking for
      the branch and one read-write compute endpoint. */
  function NewCreateBranchRequest(projectId: string, branch: NewBranch): (r: Request)
    ensures r.verb == POST && r.url == BranchesURL(projectId)
    ensures r.body.Some? && r.body.value.branch == branch
    ensures |r.body.value.endpoints| == 1 && r.body.value.endpoints[0].kind == "read_write"
  {
    Request(POST, BranchesURL(projectId), Some(CreateBranchRequest([CreateEndpoint("read_write")], branch)))
  }

  /** The requests of k attempts that all send the same request. */
  function Repeat(req: Request, k: nat): (r: seq<Request>)
    ensures |r| == k
    ensures forall i :: 0 <= i < k ==> r[i] == req
  {
    if k == 0 then [] else Repeat(req, k - 1) + [req]
  }
}
