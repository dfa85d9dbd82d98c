/** The project's branches as the client sees them through the REST API.

    The remote registry is the sequence of branches in the order that
    GET /branches lists them.  A URL path segment `seg`, as used by
    GET and DELETE on /branches/{seg}, addresses a branch whose identifier
    or whose name equals it: the client deletes by name in
    ForcedCreateBranch and by identifier in UsingBranch. */
module Registry {
  import opened Results

  /** The three Branch fields the client uses. */
  datatype Branch = Branch(id: string, name: string, parentId: string)

  /** A connection string with its structured parameters. */
  datatype ConnectionURI = ConnectionURI(uri: string, host: string, database: string, role: string, password: string)

  /** What a successful POST /branches decodes to (the parts the client uses). */
  datatype BranchCreated = BranchCreated(branch: Branch, connectionURIs: seq<ConnectionURI>)

  predicate Addresses(b: Branch, seg: string) {
    b.id == seg || b.name == seg
  }

  /** Index of the first branch the path segment addresses: the branch that
      GET /branches/{seg} answers with. */
  function Locate(bs: seq<Branch>, seg: string): (r: Option<nat>)
    ensures r.Some? ==> r.value < |bs| && Addresses(bs[r.value], seg)
    ensures r.Some? ==> forall j :: 0 <= j < r.value ==> !Addresses(bs[j], seg)
    ensures r.None? <==> forall j :: 0 <= j < |bs| ==> !Addresses(bs[j], seg)
  {
    if bs == [] then None
    else if Addresses(bs[0], seg) then Some(0)
    else match Locate(bs[1..], seg)
      case None => None
      case Some(i) => Some(i + 1)
  }

  /** The registry after DELETE /branches/{seg} succeeded: every branch the
      segment addresses is gone, everything else stays, in order. */
  function Without(bs: seq<Branch>, seg: string): (r: seq<Branch>)
    ensures forall b :: b in r <==> b in bs && !Addresses(b, seg)
    ensures |r| <= |bs|
    ensures |bs| == 1 ==> r == (if Addresses(bs[0], seg) then [] else bs)
  {
    if bs == [] then []
    else (if Addresses(bs[0], seg) then [] else [bs[0]]) + Without(bs[1..], seg)
  }

  /** A delete filters the listing piece by piece: the branches that stay
      keep their order, and each one stays once. */
  lemma {:induction false} WithoutConcat(a: seq<Branch>, b: seq<Branch>, seg: string)
    ensures Without(a + b, seg) == Without(a, seg) + Without(b, seg)
  {
    if a == [] {
      assert a + b == b;
    } else {
      assert (a + b)[0] == a[0];
      assert (a + b)[1..] == a[1..] + b;
      WithoutConcat(a[1..], b, seg);
    }
  }

  /** Index of the first branch whose display name is `name`: the scan of
      GetBranchByName over the listed branches. */
  function FirstNamed(bs: seq<Branch>, name: string): (r: Option<nat>)
    ensures r.Some? ==> r.value < |bs| && bs[r.value].name == name
    ensures r.Some? ==> forall j :: 0 <= j < r.value ==> bs[j].name != name
    ensures r.None? <==> forall j :: 0 <= j < |bs| ==> bs[j].name != name
  {
    if bs == [] then None
    else if bs[0].name == name then Some(0)
    else match FirstNamed(bs[1..], name)
      case None => None
      case Some(i) => Some(i + 1)
  }

  /** How many branches carry the display name `name`. */
  function NamedCount(bs: seq<Branch>, name: string): nat
  {
    if bs == [] then 0 else (if bs[0].name == name then 1 else 0) + NamedCount(bs[1..], name)
  }

  lemma {:induction false} NamedCountZero(bs: seq<Branch>, name: string)
    ensures NamedCount(bs, name) == 0 <==> forall b :: b in bs ==> b.name != name
  {
    if bs != [] {
      NamedCountZero(bs[1..], name);
      assert forall b :: b in bs <==> b == bs[0] || b in bs[1..];
    }
  }

  lemma {:induction false} NamedCountAppend(bs: seq<Branch>, b: Branch, name: string)
    ensures NamedCount(bs + [b], name) == NamedCount(bs, name) + (if b.name == name then 1 else 0)
  {
    if bs == [] {
      assert bs + [b] == [b];
    } else {
      assert (bs + [b])[1..] == bs[1..] + [b];
      NamedCountAppend(bs[1..], b, name);
    }
  }

  /** After deleting by a name, no branch of that name is left. */
  lemma WithoutClearsName(bs: seq<Branch>, name: string)
    ensures NamedCount(Without(bs, name), name) == 0
    ensures Locate(Without(bs, name), name).None?
  {
    NamedCountZero(Without(bs, name), name);
  }

  /** A branch appended to a registry holding none of its name is the only
      one of that name, and it is what its name now addresses. */
  lemma AppendOnly(bs: seq<Branch>, b: Branch)
    requires forall x :: x in bs ==> !Addresses(x, b.name)
    ensures NamedCount(bs + [b], b.name) == 1
    ensures Locate(bs + [b], b.name) == Some(|bs|)
  {
    NamedCountAppend(bs, b, b.name);
    NamedCountZero(bs, b.name);
    var r := bs + [b];
    assert Addresses(r[|bs|], b.name);
    var i := Locate(r, b.name);
    assert i.Some?;
  }
}
