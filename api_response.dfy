/** The uniform REST response envelope: ApiError (error details attached to a
    response), the fluent, mutable ApiResponseBuilder and the ApiResponse it
    builds. Instants are millisecond numbers supplied by the caller in place
    of Instant.now(); a Java null is None (or a null reference for ApiError). */
module ApiResponses {
  import opened JavaLang

  /** Error information; the builder's path(...) writes into an attached
      instance, so it is a mutable object. */
  class ApiError {
    var code: Option<string>
    var message: Option<string>
    var details: Option<string>
    var timestamp: int
    var path: Option<string>

    /** `new ApiError(code, message)` and `new ApiError(code, message, details)`
        at instant `now`; the path is unset. */
    constructor (code: Option<string>, message: Option<string>, details: Option<string>, now: int)
      ensures this.code == code && this.message == message && this.details == details
      ensures timestamp == now && path == None
    {
      this.code := code;
      this.message := message;
      this.details := details;
      timestamp := now;
      path := None;
    }

    /** The code/message shape of the static factories badRequest, notFound, ... */
    predicate HasCodeAndMessage(code: string, message: Option<string>)
      reads this
    {
      this.code == Some(code) && this.message == message && details == None && path == None
    }

    /** setPath: only the path changes. */
    method SetPath(path: Option<string>)
      modifies this
      ensures this.path == path
      ensures code == old(code) && message == old(message) && details == old(details) && timestamp == old(timestamp)
    {
      this.path := path;
    }
  }

  /** The error codes of the ApiError factories and the statuses of the failure
      conveniences, which use the same words. */
  const BAD_REQUEST := "BAD_REQUEST"
  const NOT_FOUND := "NOT_FOUND"
  const FORBIDDEN := "FORBIDDEN"
  const UNAUTHORIZED := "UNAUTHORIZED"
  const CONFLICT := "CONFLICT"
  const INTERNAL_SERVER_ERROR := "INTERNAL_SERVER_ERROR"
  const VALIDATION_ERROR := "VALIDATION_ERROR"

  /** ApiError.badRequest, notFound, forbidden, unauthorized, conflict and
      internalServerError: a fresh error with the given code and message. */
  method NewError(code: string, message: Option<string>, now: int) returns (e: ApiError)
    ensures fresh(e) && e.HasCodeAndMessage(code, message) && e.timestamp == now
  {
    e := new ApiError(Some(code), message, None, now);
  }

  /** The response value build() produces. The success flag is not part of it. */
  datatype ApiResponse<T> = ApiResponse(
    status: Option<string>,
    message: Option<string>,
    data: Option<T>,
    error: ApiError?,
    timestamp: int,
    path: Option<string>)

  /** The builder's seven fields as one value. */
  datatype Snapshot<T> = Snapshot(
    success: bool,
    status: Option<string>,
    message: Option<string>,
    data: Option<T>,
    error: ApiError?,
    timestamp: int,
    path: Option<string>)

  /** What build() copies out of a builder state: every field except success. */
  function ResponseOf<T>(s: Snapshot<T>): (r: ApiResponse<T>)
  {
    ApiResponse(s.status, s.message, s.data, s.error, s.timestamp, s.path)
  }

  /** build() loses exactly the success flag: two builder states give the same
      response iff they agree on everything but success. */
  lemma ResponseOfForgetsOnlySuccess<T>(a: Snapshot<T>, b: Snapshot<T>)
    ensures ResponseOf(a) == ResponseOf(b) <==> a.(success := b.success) == b
  {
    if ResponseOf(a) == ResponseOf(b) {
      assert ResponseOf(a).status == ResponseOf(b).status;
    }
  }

  class ApiResponseBuilder<T> {
    var success: bool
    var status: Option<string>
    var message: Option<string>
    var data: Option<T>
    var error: ApiError?
    var timestamp: int
    var path: Option<string>

    function State(): Snapshot<T>
      reads this
    {
      Snapshot(success, status, message, data, error, timestamp, path)
    }

    /** A new builder: not successful, every field null except the timestamp. */
    constructor (now: int)
      ensures State() == Snapshot(false, None, None, None, null, now, None)
    {
      success := false;
      status := None;
      message := None;
      data := None;
      error := null;
      timestamp := now;
      path := None;
    }

    method SetSuccess(success: bool) returns (self: ApiResponseBuilder<T>)
      modifies this
      ensures self == this && State() == old(State()).(success := success)
    {
      this.success := success;
      return this;
    }

    method Success() returns (self: ApiResponseBuilder<T>)
      modifies this
      ensures self == this && State() == old(State()).(success := true)
    {
      success := true;
      return this;
    }

    method Failure() returns (self: ApiResponseBuilder<T>)
      modifies this
      ensures self == this && State() == old(State()).(success := false)
    {
      success := false;
      return this;
    }

    method Status(status: Option<string>) returns (self: ApiResponseBuilder<T>)
      modifies this
      ensures self == this && State() == old(State()).(status := status)
    {
      this.status := status;
      return this;
    }

    method Message(message: Option<string>) returns (self: ApiResponseBuilder<T>)
      modifies this
      ensures self == this && State() == old(State()).(message := message)
    {
      this.message := message;
      return this;
    }

    method Data(data: Option<T>) returns (self: ApiResponseBuilder<T>)
      modifies this
      ensures self == this && State() == old(State()).(data := data)
    {
      this.data := data;
      return this;
    }

    /** error(ApiError): attaches the given error and forces success to false,
        whatever success() said before. */
    method Error(error: ApiError?) returns (self: ApiResponseBuilder<T>)
      modifies this
      ensures self == this && State() == old(State()).(error := error, success := false)
    {
      this.error := error;
      success := false;
      return this;
    }

    /** error(code, message) and error(code, message, details): a fresh error,
        success forced to false. */
    method ErrorOf(code: Option<string>, message: Option<string>, details: Option<string>, now: int)
      returns (self: ApiResponseBuilder<T>)
      modifies this
      ensures self == this && State() == old(State()).(error := error, success := false)
      ensures fresh(error) && error.code == code && error.message == message && error.details == details
      ensures error.timestamp == now && error.path == None
    {
      error := new ApiError(code, message, details, now);
      success := false;
      return this;
    }

    method Timestamp(timestamp: int) returns (self: ApiResponseBuilder<T>)
      modifies this
      ensures self == this && State() == old(State()).(timestamp := timestamp)
    {
      this.timestamp := timestamp;
      return this;
    }

    /** path(p): sets the builder's path and, when an error is attached, that
        error's path too; nothing else of the error changes. */
    method Path(path: Option<string>) returns (self: ApiResponseBuilder<T>)
      modifies this, error
      ensures self == this && State() == old(State()).(path := path)
      ensures error != null ==> error.path == path
      ensures error != null ==> error.code == old(error.code) && error.message == old(error.message)
      ensures error != null ==> error.details == old(error.details) && error.timestamp == old(error.timestamp)
    {
      this.path := path;
      if error != null {
        error.SetPath(path);
      }
      return this;
    }

    /** Shared shape of the success conveniences: success set, status and message
        replaced, data replaced when `data` is given. */
    method Succeed(status: string, message: Option<string>, data: Option<Option<T>>)
      modifies this
      ensures data.Some? ==> State() == old(State()).(success := true, status := Some(status), message := message, data := data.value)
      ensures data.None? ==> State() == old(State()).(success := true, status := Some(status), message := message)
    {
      var b := Success();
      b := b.Status(Some(status));
      b := b.Message(message);
      if data.Some? {
        b := b.Data(data.value);
      }
    }

    method SuccessResponse(data: Option<T>) returns (self: ApiResponseBuilder<T>)
      modifies this
      ensures self == this
      ensures State() == old(State()).(success := true, status := Some("SUCCESS"),
                                       message := Some("Operation completed successfully"), data := data)
    {
      Succeed("SUCCESS", Some("Operation completed successfully"), Some(data));
      return this;
    }

    method SuccessResponseWithMessage(message: Option<string>, data: Option<T>) returns (self: ApiResponseBuilder<T>)
      modifies this
      ensures self == this
      ensures State() == old(State()).(success := true, status := Some("SUCCESS"), message := message, data := data)
    {
      Succeed("SUCCESS", message, Some(data));
      return this;
    }

    method CreatedResponse(data: Option<T>) returns (self: ApiResponseBuilder<T>)
      modifies this
      ensures self == this
      ensures State() == old(State()).(success := true, status := Some("CREATED"),
                                       message := Some("Resource created successfully"), data := data)
    {
      Succeed("CREATED", Some("Resource created successfully"), Some(data));
      return this;
    }

    method CreatedResponseWithMessage(message: Option<string>, data: Option<T>) returns (self: ApiResponseBuilder<T>)
      modifies this
      ensures self == this
      ensures State() == old(State()).(success := true, status := Some("CREATED"), message := message, data := data)
    {
      Succeed("CREATED", message, Some(data));
      return this;
    }

    method UpdatedResponse(data: Option<T>) returns (self: ApiResponseBuilder<T>)
      modifies this
      ensures self == this
      ensures State() == old(State()).(success := true, status := Some("UPDATED"),
                                       message := Some("Resource updated successfully"), data := data)
    {
      Succeed("UPDATED", Some("Resource updated successfully"), Some(data));
      return this;
    }

    method UpdatedResponseWithMessage(message: Option<string>, data: Option<T>) returns (self: ApiResponseBuilder<T>)
      modifies this
      ensures self == this
      ensures State() == old(State()).(success := true, status := Some("UPDATED"), message := message, data := data)
    {
      Succeed("UPDATED", message, Some(data));
      return this;
    }

    /** deletedResponse(): data is left as it was. */
    method DeletedResponse() returns (self: ApiResponseBuilder<T>)
      modifies this
      ensures self == this
      ensures State() == old(State()).(success := true, status := Some("DELETED"),
                                       message := Some("Resource deleted successfully"))
    {
      Succeed("DELETED", Some("Resource deleted successfully"), None);
      return this;
    }

    method DeletedResponseWithMessage(message: Option<string>) returns (self: ApiResponseBuilder<T>)
      modifies this
      ensures self == this
      ensures State() == old(State()).(success := true, status := Some("DELETED"), message := message)
    {
      Succeed("DELETED", message, None);
      return this;
    }

    /** Shared shape of the failure conveniences: failure, status and message set
        to `status` and `message`, and a fresh error with the same code and message. */
    method Fail(status: string, message: Option<string>, now: int)
      modifies this
      ensures State() == old(State()).(success := false, status := Some(status), message := message, error := error)
      ensures fresh(error) && error.HasCodeAndMessage(status, message) && error.timestamp == now
    {
      var b := Failure();
      b := b.Status(Some(status));
      b := b.Message(message);
      var e := NewError(status, message, now);
      b := b.Error(e);
    }

    method BadRequestResponse(message: Option<string>, now: int) returns (self: ApiResponseBuilder<T>)
      modifies this
      ensures self == this
      ensures State() == old(State()).(success := false, status := Some(BAD_REQUEST), message := message, error := error)
      ensures fresh(error) && error.HasCodeAndMessage(BAD_REQUEST, message) && error.timestamp == now
    {
      Fail(BAD_REQUEST, message, now);
      return this;
    }

    method NotFoundResponse(message: Option<string>, now: int) returns (self: ApiResponseBuilder<T>)
      modifies this
      ensures self == this
      ensures State() == old(State()).(success := false, status := Some(NOT_FOUND), message := message, error := error)
      ensures fresh(error) && error.HasCodeAndMessage(NOT_FOUND, message) && error.timestamp == now
    {
      Fail(NOT_FOUND, message, now);
      return this;
    }

    method ForbiddenResponse(message: Option<string>, now: int) returns (self: ApiResponseBuilder<T>)
      modifies this
      ensures self == this
      ensures State() == old(State()).(success := false, status := Some(FORBIDDEN), message := message, error := error)
      ensures fresh(error) && error.HasCodeAndMessage(FORBIDDEN, message) && error.timestamp == now
    {
      Fail(FORBIDDEN, message, now);
      return this;
    }

    method UnauthorizedResponse(message: Option<string>, now: int) returns (self: ApiResponseBuilder<T>)
      modifies this
      ensures self == this
      ensures State() == old(State()).(success := false, status := Some(UNAUTHORIZED), message := message, error := error)
      ensures fresh(error) && error.HasCodeAndMessage(UNAUTHORIZED, message) && error.timestamp == now
    {
      Fail(UNAUTHORIZED, message, now);
      return this;
    }

    method ConflictResponse(message: Option<string>, now: int) returns (self: ApiResponseBuilder<T>)
      modifies this
      ensures self == this
      ensures State() == old(State()).(success := false, status := Some(CONFLICT), message := message, error := error)
      ensures fresh(error) && error.HasCodeAndMessage(CONFLICT, message) && error.timestamp == now
    {
      Fail(CONFLICT, message, now);
      return this;
    }

    /** validationErrorResponse: the supplied error is attached as it is. */
    method ValidationErrorResponse(message: Option<string>, validationError: ApiError?) returns (self: ApiResponseBuilder<T>)
      modifies this
      ensures self == this
      ensures State() == old(State()).(success := false, status := Some(VALIDATION_ERROR), message := message,
                                       error := validationError)
    {
      var b := Failure();
      b := b.Status(Some(VALIDATION_ERROR));
      b := b.Message(message);
      b := b.Error(validationError);
      return this;
    }

    method InternalServerErrorResponse(message: Option<string>, now: int) returns (self: ApiResponseBuilder<T>)
      modifies this
      ensures self == this
      ensures State() == old(State()).(success := false, status := Some(INTERNAL_SERVER_ERROR), message := message,
                                       error := error)
      ensures fresh(error) && error.HasCodeAndMessage(INTERNAL_SERVER_ERROR, message) && error.timestamp == now
    {
      Fail(INTERNAL_SERVER_ERROR, message, now);
      return this;
    }

    /** build(): the response carries the builder's status, message, data, error
        (the same object), timestamp and path; the builder is unchanged. */
    method Build() returns (response: ApiResponse<T>)
      ensures response == ResponseOf(State())
      ensures response.error == error
    {
      response := ApiResponse(status, message, data, error, timestamp, path);
    }
  }
}
