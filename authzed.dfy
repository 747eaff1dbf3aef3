/**
 * The authorization-service client (internal/authzed/http_client.go): how the
 * permission-check and relationship-write requests are built, the retry loop of
 * the check, and how the final HTTP outcome is turned into a result.
 *
 * HTTP and JSON are abstracted: an attempt is either a transport error or a
 * response carrying a status code and the outcome of decoding its body, and
 * the marshalling/request-building step is an abstract `Setup` outcome.
 */
module Authzed {
  import opened Wrappers

  // ---------------------------------------------------------------------------
  // Request records
  // ---------------------------------------------------------------------------

  datatype Resource = Resource(objectType: string, objectId: string)
  datatype Subject = Subject(obj: Resource)  // `Object` in the source
  datatype Consistency = Consistency(minimizeLatency: bool, fullyConsistent: bool)
  datatype CheckRequest = CheckRequest(consistency: Consistency, resource: Resource, permission: string, subject: Subject)
  datatype Relationship = Relationship(resource: Resource, relation: string, subject: Subject)
  datatype Update = Update(operation: string, relationship: Relationship)
  datatype WriteRequest = WriteRequest(updates: seq<Update>)

  /** A request as posted: the URL and the body that was marshalled. */
  datatype Post<B> = Post(url: string, body: B)

  const CheckPath := "/v1/permissions/check"
  const WritePath := "/v1/relationships/write"
  const TouchOperation := "OPERATION_TOUCH"
  const HasPermission := "PERMISSIONSHIP_HAS_PERMISSION"
  const MaxAttempts := 3
  /** The pause, in milliseconds, after each failed check attempt but the last. */
  const RetryDelayMs := 1000

  /** The body of a permission check: fully consistent, latency not minimised. */
  function NewCheckRequest(objectType: string, objectID: string, permission: string, subjectType: string, subjectID: string): (r: CheckRequest)
    ensures r.resource == Resource(objectType, objectID)
    ensures r.subject.obj == Resource(subjectType, subjectID)
    ensures r.permission == permission
    ensures r.consistency.fullyConsistent && !r.consistency.minimizeLatency
  {
    CheckRequest(Consistency(false, true), Resource(objectType, objectID), permission, Subject(Resource(subjectType, subjectID)))
  }

  /** The body of a relationship write: a single touch (upsert) of the given relationship. */
  function NewWriteRequest(objectType: string, objectID: string, relation: string, subjectType: string, subjectID: string): (r: WriteRequest)
    ensures |r.updates| == 1
    ensures r.updates[0].operation == TouchOperation
    ensures r.updates[0].relationship.resource == Resource(objectType, objectID)
    ensures r.updates[0].relationship.relation == relation
    ensures r.updates[0].relationship.subject.obj == Resource(subjectType, subjectID)
  {
    WriteRequest([Update(TouchOperation, Relationship(Resource(objectType, objectID), relation, Subject(Resource(subjectType, subjectID))))])
  }

  /** The check issued for a tuple asks about exactly the object and subject that writing it touched. */
  lemma CheckTargetsWrittenRelationship(objectType: string, objectID: string, relation: string, permission: string, subjectType: string, subjectID: string)
    ensures NewCheckRequest(objectType, objectID, permission, subjectType, subjectID).resource
         == NewWriteRequest(objectType, objectID, relation, subjectType, subjectID).updates[0].relationship.resource
    ensures NewCheckRequest(objectType, objectID, permission, subjectType, subjectID).subject
         == NewWriteRequest(objectType, objectID, relation, subjectType, subjectID).updates[0].relationship.subject
  {
  }

  // ---------------------------------------------------------------------------
  // Abstract HTTP outcomes
  // ---------------------------------------------------------------------------

  /** The result of decoding a check response body. */
  datatype Decoded = DecodeFailed | CheckResponse(permissionship: string)
  datatype Response = Response(statusCode: int, body: Decoded)

  /** One call of the HTTP client: a transport error (no response) or a response. */
  datatype Attempt = TransportError | Returned(resp: Response)
  {
    /** The response pointer the client hands back: nil exactly on a transport error. */
    function Resp(): Option<Response>
    {
      if Returned? then Some(resp) else None
    }
  }

  /** The outcome of marshalling the body and building the HTTP request, before any call. */
  datatype Setup = Ready | MarshalFailed | BuildFailed

  datatype Error = MarshalError | BuildError | TransportFailure | UnexpectedStatus(status: int) | DecodeError

  /** The `(bool, error)` pair a permission check returns. */
  datatype CheckReply = CheckReply(allowed: bool, err: Option<Error>)

  /** The status to report for a possibly missing response. */
  function GetStatus(resp: Option<Response>): (s: int)
    ensures resp.None? ==> s == 0
    ensures resp.Some? ==> s == resp.value.statusCode
  {
    match resp
    case None => 0
    case Some(r) => r.statusCode
  }

  /** An attempt after which the check stops retrying: a response with status exactly 200. */
  predicate Succeeded(a: Attempt)
  {
    a.Returned? && a.resp.statusCode == 200
  }

  /** An attempt stops the retry loop exactly when it yields a response whose reported status is 200. */
  lemma SucceededIffStatus200(a: Attempt)
    ensures Succeeded(a) <==> a.Resp().Some? && GetStatus(a.Resp()) == 200
  {
  }

  // ---------------------------------------------------------------------------
  // CheckPermission
  // ---------------------------------------------------------------------------

  /**
   * How many of the available attempts the retry loop uses: it stops after the
   * first successful one, or when there are no more.
   */
  function AttemptsUsed(outcomes: seq<Attempt>): (n: nat)
    requires |outcomes| >= 1
    ensures 1 <= n <= |outcomes|
    ensures forall i :: 0 <= i < n - 1 ==> !Succeeded(outcomes[i])
    ensures n < |outcomes| ==> Succeeded(outcomes[n - 1])
  {
    if Succeeded(outcomes[0]) || |outcomes| == 1 then 1 else 1 + AttemptsUsed(outcomes[1..])
  }

  /** The three facts stated by AttemptsUsed's contract determine it uniquely. */
  lemma AttemptsUsedUnique(outcomes: seq<Attempt>, n: nat)
    requires 1 <= n <= |outcomes|
    requires forall i :: 0 <= i < n - 1 ==> !Succeeded(outcomes[i])
    requires n < |outcomes| ==> Succeeded(outcomes[n - 1])
    ensures n == AttemptsUsed(outcomes)
  {
  }

  /**
   * The decision taken on the last attempt, checked in the source's order:
   * transport error, then status, then decoding, then the permissionship.
   */
  function FinalDecision(last: Attempt): (r: CheckReply)
    ensures r.err.Some? ==> !r.allowed
    ensures last.TransportError? ==> r.err == Some(TransportFailure)
    ensures last.Returned? && last.resp.statusCode != 200 ==> r.err == Some(UnexpectedStatus(last.resp.statusCode))
    ensures Succeeded(last) && last.resp.body.DecodeFailed? ==> r.err == Some(DecodeError)
    ensures r.err.None? <==> Succeeded(last) && last.resp.body.CheckResponse?
    ensures r.allowed <==> last == Returned(Response(200, CheckResponse(HasPermission)))
  {
    match last
    case TransportError => CheckReply(false, Some(TransportFailure))
    case Returned(resp) =>
      if resp.statusCode != 200 then CheckReply(false, Some(UnexpectedStatus(resp.statusCode)))
      else match resp.body
        case DecodeFailed => CheckReply(false, Some(DecodeError))
        case CheckResponse(p) => CheckReply(p == HasPermission, None)
  }

  /** The result of a permission check, given the setup outcome and the attempts the client would see. */
  function CheckOutcome(setup: Setup, attempts: seq<Attempt>): (r: CheckReply)
    requires |attempts| == MaxAttempts
    ensures r.err.Some? ==> !r.allowed
    ensures setup == MarshalFailed ==> r == CheckReply(false, Some(MarshalError))
    ensures setup == BuildFailed ==> r == CheckReply(false, Some(BuildError))
  {
    match setup
    case MarshalFailed => CheckReply(false, Some(MarshalError))
    case BuildFailed => CheckReply(false, Some(BuildError))
    case Ready => FinalDecision(attempts[AttemptsUsed(attempts) - 1])
  }

  /**
   * A check grants permission exactly when the request was built and some
   * attempt, with no earlier attempt having succeeded, returned status 200 and
   * a body saying the subject has the permission.
   */
  lemma CheckAllowedIff(setup: Setup, attempts: seq<Attempt>)
    requires |attempts| == MaxAttempts
    ensures CheckOutcome(setup, attempts).allowed <==>
      setup == Ready &&
      exists k :: 0 <= k < MaxAttempts &&
        (forall i :: 0 <= i < k ==> !Succeeded(attempts[i])) &&
        attempts[k] == Returned(Response(200, CheckResponse(HasPermission)))
  {
  }

  /** When every attempt fails the check returns an error, and never grants permission. */
  lemma AllAttemptsFailedIsError(setup: Setup, attempts: seq<Attempt>)
    requires |attempts| == MaxAttempts
    requires forall i :: 0 <= i < MaxAttempts ==> !Succeeded(attempts[i])
    ensures CheckOutcome(setup, attempts).err.Some?
    ensures !CheckOutcome(setup, attempts).allowed
  {
  }

  /**
   * CheckPermission: build the request, then call the service up to three
   * times, stopping at the first response with status 200. After each failed
   * attempt except the third a retry notice is logged (with the status
   * GetStatus reports) and the loop pauses RetryDelayMs. The result is decided
   * by the last attempt made.
   *
   * `attempts` gives the outcome the client would see on each successive call.
   * Besides the reply, the method returns what was posted, how many calls were
   * made, and the status logged with each retry notice (one per pause).
   */
  method CheckPermission(api: string, objectType: string, objectID: string, permission: string,
                         subjectType: string, subjectID: string, setup: Setup, attempts: seq<Attempt>)
    returns (reply: CheckReply, posted: Option<Post<CheckRequest>>, attemptsMade: nat, retries: seq<int>)
    requires |attempts| == MaxAttempts
    ensures reply == CheckOutcome(setup, attempts)
    ensures reply.err.Some? ==> !reply.allowed
    ensures posted.Some? <==> setup == Ready
    ensures posted.Some? ==> posted.value == Post(api + CheckPath, NewCheckRequest(objectType, objectID, permission, subjectType, subjectID))
    ensures setup != Ready ==> attemptsMade == 0 && retries == []
    ensures setup == Ready ==> attemptsMade == AttemptsUsed(attempts)
    ensures attemptsMade <= MaxAttempts
    ensures forall i :: 0 <= i < attemptsMade - 1 ==> !Succeeded(attempts[i])
    ensures 0 < attemptsMade < MaxAttempts ==> Succeeded(attempts[attemptsMade - 1])
    ensures setup == Ready ==> |retries| == attemptsMade - 1
    ensures forall i :: 0 <= i < |retries| ==> retries[i] == GetStatus(attempts[i].Resp())
  {
    var request := NewCheckRequest(objectType, objectID, permission, subjectType, subjectID);
    attemptsMade, retries := 0, [];
    if setup == MarshalFailed {
      return CheckReply(false, Some(MarshalError)), None, attemptsMade, retries;
    }
    var url := api + CheckPath;
    if setup == BuildFailed {
      return CheckReply(false, Some(BuildError)), None, attemptsMade, retries;
    }
    posted := Some(Post(url, request));

    var last := attempts[0];
    var attempt := 1;
    while attempt <= MaxAttempts
      invariant 1 <= attempt <= MaxAttempts + 1
      invariant attemptsMade == attempt - 1
      invariant forall i :: 0 <= i < attemptsMade ==> !Succeeded(attempts[i])
      invariant attemptsMade > 0 ==> last == attempts[attemptsMade - 1]
      invariant |retries| == if attemptsMade < MaxAttempts then attemptsMade else MaxAttempts - 1
      invariant forall i :: 0 <= i < |retries| ==> retries[i] == GetStatus(attempts[i].Resp())
    {
      last := attempts[attempt - 1];
      attemptsMade := attempt;
      if Succeeded(last) {
        break;
      }
      if attempt < MaxAttempts {
        retries := retries + [GetStatus(last.Resp())];
      }
      attempt := attempt + 1;
    }
    AttemptsUsedUnique(attempts, attemptsMade);
    reply := FinalDecision(last);
  }

  // ---------------------------------------------------------------------------
  // WriteTuple
  // ---------------------------------------------------------------------------

  /** What a relationship write returns: what was posted, and the error, if any. */
  datatype WriteOutcome = WriteOutcome(posted: Option<Post<WriteRequest>>, err: Option<Error>)

  /**
   * WriteTuple: build the touch request and make exactly one call, without
   * retrying. A transport error or a status of 300 or more is an error.
   */
  function WriteTuple(api: string, objectType: string, objectID: string, relation: string,
                      subjectType: string, subjectID: string, setup: Setup, outcome: Attempt): (r: WriteOutcome)
    ensures r.posted.Some? <==> setup == Ready
    ensures r.posted.Some? ==> r.posted.value == Post(api + WritePath, NewWriteRequest(objectType, objectID, relation, subjectType, subjectID))
    ensures r.err.None? <==> setup == Ready && outcome.Returned? && outcome.resp.statusCode < 300
    ensures setup == MarshalFailed ==> r.err == Some(MarshalError)
    ensures setup == BuildFailed ==> r.err == Some(BuildError)
    ensures setup == Ready && outcome.TransportError? ==> r.err == Some(TransportFailure)
    ensures setup == Ready && outcome.Returned? && outcome.resp.statusCode >= 300 ==> r.err == Some(UnexpectedStatus(outcome.resp.statusCode))
  {
    match setup
    case MarshalFailed => WriteOutcome(None, Some(MarshalError))
    case BuildFailed => WriteOutcome(None, Some(BuildError))
    case Ready =>
      var posted := Some(Post(api + WritePath, NewWriteRequest(objectType, objectID, relation, subjectType, subjectID)));
      match outcome
      case TransportError => WriteOutcome(posted, Some(TransportFailure))
      case Returned(resp) =>
        if resp.statusCode >= 300 then WriteOutcome(posted, Some(UnexpectedStatus(resp.statusCode)))
        else WriteOutcome(posted, None)
  }

  /**
   * The write accepts strictly more responses than the check: every response
   * that ends the check's retry loop is a successful write, but a write also
   * succeeds on other statuses below 300 (204, say), which the check would retry.
   */
  lemma WriteAcceptsMoreThanCheck(api: string, objectType: string, objectID: string, relation: string,
                                  subjectType: string, subjectID: string)
    ensures forall a: Attempt :: Succeeded(a) ==>
      WriteTuple(api, objectType, objectID, relation, subjectType, subjectID, Ready, a).err.None?
    ensures var a := Returned(Response(204, DecodeFailed));
      !Succeeded(a) && WriteTuple(api, objectType, objectID, relation, subjectType, subjectID, Ready, a).err.None?
  {
  }
}
