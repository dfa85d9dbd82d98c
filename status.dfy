/** How the client classifies the HTTP status codes the service answers with. */
module HttpStatus {
  import opened Results

  const OK: int := 200
  const Created: int := 201
  const NotFound: int := 404
  const Locked: int := 423

  /** `slices.Contains`: a linear scan of the accepted codes. */
  function Contains(xs: seq<int>, x: int): (r: bool)
    ensures r <==> x in xs
  {
    if xs == [] then false else xs[0] == x || Contains(xs[1..], x)
  }

  /** `validateStatus`: passes exactly when the code is one of the accepted
      ones, and otherwise stops the process naming the code. */
  function ValidateStatus(code: int, accepted: seq<int>): (r: Outcome<()>)
    ensures r.Done? <==> code in accepted
    ensures r.Fatal? ==> r.failure == UnexpectedStatus(code)
  {
    if Contains(accepted, code) then Done(()) else Fatal(UnexpectedStatus(code))
  }

  /** The rule shared by GetBranch and GetBranches: 404 means "absent"
      (Done(false)), otherwise only 200 is accepted (Done(true)). */
  function CheckFound(code: int): (r: Outcome<bool>)
    ensures r == Done(false) <==> code == NotFound
    ensures r == Done(true) <==> code == OK
    ensures r.Fatal? <==> code != NotFound && code != OK
    ensures r.Fatal? ==> r.failure == UnexpectedStatus(code)
  {
    if code == NotFound then Done(false)
    else match ValidateStatus(code, [OK])
      case Done(_) => Done(true)
      case Fatal(f) => Fatal(f)
  }

  /** What the create loop does with the answer to one POST attempt. */
  datatype Attempt = Retry | Accept | Reject(failure: Failure)

  /** 423 means try again; otherwise only 200 and 201 are accepted. */
  function ClassifyCreate(code: int): (r: Attempt)
    ensures r == Retry <==> code == Locked
    ensures r == Accept <==> code == OK || code == Created
    ensures r.Reject? <==> code != Locked && code != OK && code != Created
    ensures r.Reject? ==> r.failure == UnexpectedStatus(code)
  {
    if code == Locked then Retry
    else match ValidateStatus(code, [OK, Created])
      case Done(_) => Accept
      case Fatal(f) => Reject(f)
  }

  /** `DeleteBranch` accepts 200 only. */
  function CheckDeleted(code: int): (r: Outcome<()>)
    ensures r.Done? <==> code == OK
    ensures r.Fatal? ==> r.failure == UnexpectedStatus(code)
  {
    ValidateStatus(code, [OK])
  }
}
