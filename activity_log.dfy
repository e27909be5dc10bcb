/** Activity logging: the record logActivity saves and the client address it
    takes from the current HTTP request. The request (absent when no request
    is bound to the thread), the current instant and whether the repository's
    save throws are inputs. */
module ActivityLogging {
  import opened JavaLang

  datatype ActionType =
    | AGENT_REGISTERED | AGENT_LOGIN | AGENT_LOGOUT | AGENT_PASSWORD_CHANGED
    | AGENT_PASSWORD_RESET_REQUESTED | AGENT_PASSWORD_RESET_COMPLETED
    | AGENT_PROFILE_UPDATED | AGENT_UPDATED | AGENT_DELETED
    | CUSTOMER_REGISTERED | CUSTOMER_UPDATED | CUSTOMER_DELETED | CUSTOMER_VIEWED | CUSTOMER_SEARCHED
    | ADMIN_USER_CREATED | ADMIN_USER_UPDATED | ADMIN_USER_DELETED
    | ADMIN_USER_ACTIVATED | ADMIN_USER_DEACTIVATED | ADMIN_PASSWORD_RESET
    | SYSTEM_ACCESS_DENIED | SYSTEM_ERROR

  datatype ActionStatus = SUCCESS | FAILED | PENDING

  /** The parts of an HTTP request logActivity reads. `sessionId` is None when
      the request has no session. */
  datatype HttpRequest = HttpRequest(
    xForwardedFor: Option<string>,
    xRealIp: Option<string>,
    remoteAddr: Option<string>,
    userAgent: Option<string>,
    sessionId: Option<string>)

  /** A header value that names a client: present, non-empty and not "unknown"
      in any letter case. */
  predicate Usable(header: Option<string>)
  {
    header.Some? && header.value != [] && !EqualsIgnoreCase("unknown", header.value)
  }

  /** Indexing the empty array `split(",")` returns for a header of commas only. */
  datatype IpError = ArrayIndexOutOfBounds

  /** getClientIpAddress: the first comma-separated entry of X-Forwarded-For,
      trimmed; else X-Real-IP as it is; else the remote address. */
  function ClientIpAddress(request: HttpRequest): (r: Result<Option<string>, IpError>)
    ensures r.Failure? <==> Usable(request.xForwardedFor) && AllSeparators(request.xForwardedFor.value, ',')
    ensures Usable(request.xForwardedFor) && r.Success?
        ==> r.value == Some(Trim(FirstField(request.xForwardedFor.value, ',')))
    ensures !Usable(request.xForwardedFor) && Usable(request.xRealIp) ==> r == Success(request.xRealIp)
    ensures !Usable(request.xForwardedFor) && !Usable(request.xRealIp) ==> r == Success(request.remoteAddr)
  {
    if Usable(request.xForwardedFor) then
      var parts := Split(request.xForwardedFor.value, ',');
      SplitFirst(request.xForwardedFor.value, ',');
      if parts == [] then Failure(ArrayIndexOutOfBounds) else Success(Some(Trim(parts[0])))
    else if Usable(request.xRealIp) then Success(request.xRealIp)
    else Success(request.remoteAddr)
  }

  /** X-Forwarded-For takes precedence: when it is usable, neither X-Real-IP nor
      the remote address affects the answer. */
  lemma ForwardedForTakesPrecedence(request: HttpRequest, xRealIp: Option<string>, remoteAddr: Option<string>)
    requires Usable(request.xForwardedFor)
    ensures ClientIpAddress(request) == ClientIpAddress(request.(xRealIp := xRealIp, remoteAddr := remoteAddr))
  {
  }

  /** The address is the first hop of the forwarding chain, without the blanks
      around it. */
  lemma ForwardedForFirstHop(request: HttpRequest, hop: string, rest: string)
    requires request.xForwardedFor == Some(hop + "," + rest)
    requires ',' !in hop && Trim(hop) != []
    ensures ClientIpAddress(request) == Success(Some(Trim(hop)))
  {
    var xff := hop + "," + rest;
    FirstFieldOfJoin(hop, rest, ',');
    assert xff[|hop|] == ',';
    CommaIsNotUnknown(xff, |hop|);
    TrimEmptyIff(hop);
    var i :| 0 <= i < |hop| && !IsTrimmable(hop[i]);
    assert xff[i] == hop[i];
  }

  /** A header holding a comma is never "unknown". */
  lemma CommaIsNotUnknown(s: string, k: int)
    requires 0 <= k < |s| && s[k] == ','
    ensures !EqualsIgnoreCase("unknown", s)
  {
    assert ToLower(s)[k] == ',';
  }

  lemma {:induction false} FirstFieldOfJoin(hop: string, rest: string, sep: char)
    requires sep !in hop
    ensures FirstField(hop + [sep] + rest, sep) == hop
    decreases |hop|
  {
    var s := hop + [sep] + rest;
    if hop != [] {
      assert s[1..] == hop[1..] + [sep] + rest;
      FirstFieldOfJoin(hop[1..], rest, sep);
    }
  }

  /** The record logActivity saves. The database id is not part of the model;
      `entityId` is the identifier the caller passes, carried through unchanged. */
  datatype ActivityLog = ActivityLog(
    actionType: Option<ActionType>,
    entityType: Option<string>,
    entityId: Option<string>,
    description: Option<string>,
    ipAddress: Option<string>,
    userAgent: Option<string>,
    timestamp: int,
    sessionId: Option<string>,
    status: Option<ActionStatus>,
    errorMessage: Option<string>)

  /** The request details reach the record only when a request is bound and the
      client address could be resolved. */
  predicate RequestDetailsRecorded(request: Option<HttpRequest>)
  {
    request.Some? && ClientIpAddress(request.value).Success?
  }

  /** The record logActivity builds: the caller's fields, the clock reading
      as timestamp, and the client address, user agent and session id of the
      bound request when its address resolves (all three absent otherwise). */
  function Record(actionType: Option<ActionType>, entityType: Option<string>, entityId: Option<string>,
                  description: Option<string>, status: Option<ActionStatus>, errorMessage: Option<string>,
                  now: int, request: Option<HttpRequest>): (log: ActivityLog)
    ensures && log.actionType == actionType && log.entityType == entityType && log.entityId == entityId
            && log.description == description && log.timestamp == now
            && log.status == status && log.errorMessage == errorMessage
    ensures RequestDetailsRecorded(request) ==>
              && log.ipAddress == ClientIpAddress(request.value).value
              && log.userAgent == request.value.userAgent && log.sessionId == request.value.sessionId
    ensures !RequestDetailsRecorded(request) ==> log.ipAddress == None && log.userAgent == None && log.sessionId == None
  {
    var details := RequestDetailsRecorded(request);
    ActivityLog(actionType, entityType, entityId, description,
                if details then ClientIpAddress(request.value).value else None,
                if details then request.value.userAgent else None,
                now,
                if details then request.value.sessionId else None,
                status, errorMessage)
  }

  /** Saved activity records, in save order: the repository. */
  class ActivityLogService {
    var saved: seq<ActivityLog>

    constructor ()
      ensures saved == []
    {
      saved := [];
    }

    /** logActivity(actionType, entityType, entityId, description, status, errorMessage).
        A failing save is swallowed and leaves the repository as it was. */
    method LogActivity(actionType: Option<ActionType>, entityType: Option<string>, entityId: Option<string>,
                       description: Option<string>, status: Option<ActionStatus>, errorMessage: Option<string>,
                       now: int, request: Option<HttpRequest>, saveFails: bool)
      modifies this
      ensures saveFails ==> saved == old(saved)
      ensures !saveFails ==> saved == old(saved) + [Record(actionType, entityType, entityId, description, status, errorMessage, now, request)]
    {
      // new ActivityLog() with the fluent setters; status starts as SUCCESS and is overwritten
      var log := ActivityLog(None, None, None, None, None, None, now, None, Some(SUCCESS), None);
      log := log.(actionType := actionType, entityType := entityType, entityId := entityId, description := description);
      log := log.(timestamp := now, status := status, errorMessage := errorMessage);
      if request.Some? {
        var ip := ClientIpAddress(request.value);
        if ip.Success? {
          log := log.(ipAddress := ip.value);
          log := log.(userAgent := request.value.userAgent);
          log := log.(sessionId := request.value.sessionId);
        }
      }
      if !saveFails {
        saved := saved + [log];
      }
    }

    /** logActivity(actionType, entityType, entityId, description): status SUCCESS,
        no error message. */
    method LogSuccess(actionType: Option<ActionType>, entityType: Option<string>, entityId: Option<string>,
                      description: Option<string>, now: int, request: Option<HttpRequest>, saveFails: bool)
      modifies this
      ensures saveFails ==> saved == old(saved)
      ensures !saveFails ==> saved == old(saved) + [Record(actionType, entityType, entityId, description, Some(SUCCESS), None, now, request)]
    {
      LogActivity(actionType, entityType, entityId, description, Some(SUCCESS), None, now, request, saveFails);
    }

    /** logActivity(actionType, entityType, entityId, description, status): no
        error message. */
    method LogWithStatus(actionType: Option<ActionType>, entityType: Option<string>, entityId: Option<string>,
                         description: Option<string>, status: Option<ActionStatus>,
                         now: int, request: Option<HttpRequest>, saveFails: bool)
      modifies this
      ensures saveFails ==> saved == old(saved)
      ensures !saveFails ==> saved == old(saved) + [Record(actionType, entityType, entityId, description, status, None, now, request)]
    {
      LogActivity(actionType, entityType, entityId, description, status, None, now, request, saveFails);
    }
  }
}
