/**
 * The contact endpoint `POST /api/mail/contact`
 * (src/Controller/ContactMailController.php, `__invoke`): a fixed chain with
 * early exits, rate limit, JSON decoding, validation, then one dispatch.
 *
 * The framework services are inputs: the rate limiter's window policy is
 * the verdict passed to `Consume`, `json_decode` is the already decoded
 * body, the address syntax check is the `isEmail` oracle. The limiter's
 * storage and the message bus are objects whose state the endpoint updates.
 */
module ContactEndpoint {
  import opened Wrappers
  import opened ContactValidation

  /** The JSON values the endpoint can read a field as. */
  datatype JsonValue = JsonNull | JsonString(s: string)

  /**
   * What `json_decode($content, true)` gave: a syntax error, or a value
   * whose string-keyed members are `members` (empty for a top-level value
   * that is not an object, such as `null` or a number).
   */
  datatype JsonDecoding = InvalidJson | Decoded(members: map<string, JsonValue>)

  /** The parts of the HTTP request the endpoint reads. `None` is a null client IP. */
  datatype Request = Request(clientIp: Option<string>, body: JsonDecoding)

  datatype ResponseBody =
    | ErrorBody(error: string)
    | ErrorsBody(errors: map<string, string>)
    | StatusBody(status: string)

  datatype JsonResponse = JsonResponse(status: int, body: ResponseBody)

  /** The job put on the bus: the validated data object. */
  datatype SendContactMailMessage = SendContactMailMessage(dto: ContactMailDto)

  /** The response of one invocation and the messages it dispatched. */
  datatype Outcome = Outcome(response: JsonResponse, dispatched: seq<SendContactMailMessage>)

  const TooManyRequests := JsonResponse(429, ErrorBody("Too many requests. Please try again later."))
  const InvalidJsonResponse := JsonResponse(400, ErrorBody("Invalid JSON"))
  const AcceptedResponse := JsonResponse(202, StatusBody("accepted"))

  /** `$data[key] ?? ''` for a string- or null-valued member. */
  function FieldOrEmpty(members: map<string, JsonValue>, key: string): string {
    if key in members && members[key].JsonString? then members[key].s else ""
  }

  /** The data object the endpoint fills from the decoded body. */
  function DtoOf(members: map<string, JsonValue>): (dto: ContactMailDto)
    ensures EmailPath !in members ==> dto.email == ""
    ensures MessagePath !in members ==> dto.message == ""
    ensures EmailPath in members && members[EmailPath] == JsonNull ==> dto.email == ""
    ensures MessagePath in members && members[MessagePath] == JsonNull ==> dto.message == ""
    ensures forall s :: EmailPath in members && members[EmailPath] == JsonString(s) ==> dto.email == s
    ensures forall s :: MessagePath in members && members[MessagePath] == JsonString(s) ==> dto.message == s
  {
    ContactMailDto(FieldOrEmpty(members, EmailPath), FieldOrEmpty(members, MessagePath))
  }

  /**
   * The field-to-message map the `foreach` builds: the violations are
   * written in order, so a later one for the same property overwrites an
   * earlier one.
   */
  function ErrorMap(vs: seq<Violation>): map<string, string> {
    if vs == [] then map[]
    else ErrorMap(vs[..|vs| - 1])[vs[|vs| - 1].propertyPath := vs[|vs| - 1].message]
  }

  /** `vs[i]` is the last violation in `vs` that is about `path`. */
  predicate IsLastFor(vs: seq<Violation>, path: string, i: int) {
    0 <= i < |vs| && vs[i].propertyPath == path
    && forall j :: i < j < |vs| ==> vs[j].propertyPath != path
  }

  /**
   * The map has one key per property that has a violation, and its value
   * is the message of the last violation about that property.
   */
  lemma {:induction false} ErrorMapLastWins(vs: seq<Violation>, path: string)
    ensures path in ErrorMap(vs) <==> HasViolation(vs, path)
    ensures path in ErrorMap(vs) ==>
              exists i :: IsLastFor(vs, path, i) && ErrorMap(vs)[path] == vs[i].message
  {
    if vs != [] {
      var n := |vs| - 1;
      var init := vs[..n];
      ErrorMapLastWins(init, path);
      if vs[n].propertyPath == path {
        assert IsLastFor(vs, path, n);
      } else {
        if HasViolation(vs, path) {
          var k :| 0 <= k < |vs| && vs[k].propertyPath == path;
          assert init[k].propertyPath == path;
        }
        if path in ErrorMap(vs) {
          var i :| IsLastFor(init, path, i) && ErrorMap(init)[path] == init[i].message;
          assert IsLastFor(vs, path, i);
        }
      }
    }
  }

  /** The `foreach` over the violations that fills `$errorMessages`. */
  method BuildErrorMap(vs: seq<Violation>) returns (errorMessages: map<string, string>)
    ensures errorMessages == ErrorMap(vs)
  {
    errorMessages := map[];
    var i := 0;
    while i < |vs|
      invariant 0 <= i <= |vs|
      invariant errorMessages == ErrorMap(vs[..i])
    {
      assert vs[..i + 1][..i] == vs[..i];
      errorMessages := errorMessages[vs[i].propertyPath := vs[i].message];
      i := i + 1;
    }
    assert vs[..i] == vs;
  }

  /** The decision chain of one invocation, given the limiter's verdict. */
  function Handle(admitted: bool, body: JsonDecoding, isEmail: string -> bool): (o: Outcome)
    ensures !admitted ==> o == Outcome(TooManyRequests, [])
    ensures admitted && body.InvalidJson? ==> o == Outcome(InvalidJsonResponse, [])
    ensures o.response.status == 202 <==>
              admitted && body.Decoded? && IsValidSubmission(DtoOf(body.members), isEmail)
    ensures o.response.status == 202 ==>
              o.response == AcceptedResponse
              && o.dispatched == [SendContactMailMessage(DtoOf(body.members))]
    ensures o.response.status != 202 ==> o.dispatched == []
    ensures o.response.status in {202, 400, 429}
  {
    if !admitted then Outcome(TooManyRequests, [])
    else if body.InvalidJson? then Outcome(InvalidJsonResponse, [])
    else
      var dto := DtoOf(body.members);
      var errors := Validate(dto, isEmail);
      if |errors| > 0 then Outcome(JsonResponse(400, ErrorsBody(ErrorMap(errors))), [])
      else Outcome(AcceptedResponse, [SendContactMailMessage(dto)])
  }

  /**
   * A validation failure answers 400 with a map from property to message:
   * its keys are exactly the properties that failed, all of them `email`
   * or `message`, and each value is the message of that property's last
   * violation.
   */
  lemma ValidationErrorsByField(body: JsonDecoding, isEmail: string -> bool)
    requires body.Decoded? && !IsValidSubmission(DtoOf(body.members), isEmail)
    ensures var o := Handle(true, body, isEmail);
      var vs := Validate(DtoOf(body.members), isEmail);
      && o.response.status == 400 && o.response.body.ErrorsBody?
      && o.response.body.errors != map[]
      && (forall k | k in o.response.body.errors :: k == EmailPath || k == MessagePath)
      && (forall p :: p in o.response.body.errors <==> HasViolation(vs, p))
      && (forall k | k in o.response.body.errors ::
            exists i :: IsLastFor(vs, k, i) && o.response.body.errors[k] == vs[i].message)
  {
    var vs := Validate(DtoOf(body.members), isEmail);
    var errors := ErrorMap(vs);
    forall p ensures p in errors <==> HasViolation(vs, p) {
      ErrorMapLastWins(vs, p);
    }
    forall k | k in errors
      ensures (k == EmailPath || k == MessagePath)
      ensures exists i :: IsLastFor(vs, k, i) && errors[k] == vs[i].message
    {
      ErrorMapLastWins(vs, k);
    }
    ErrorMapLastWins(vs, vs[0].propertyPath);
  }

  /**
   * An empty message is reported under `message` with the too-short text:
   * the blank violation comes first and the length violation overwrites it.
   */
  lemma BlankMessageReportsTooShort(members: map<string, JsonValue>, isEmail: string -> bool)
    requires DtoOf(members).message == ""
    ensures var o := Handle(true, Decoded(members), isEmail);
      o.response.status == 400 && o.response.body.ErrorsBody?
      && o.response.body.errors[MessagePath] == TooShortMessage
  {
    var vs := Validate(DtoOf(members), isEmail);
    ErrorMapLastWins(vs, MessagePath);
    var i :| IsLastFor(vs, MessagePath, i) && ErrorMap(vs)[MessagePath] == vs[i].message;
    assert vs[|vs| - 1] == Violation(MessagePath, TooShortMessage);
    assert i == |vs| - 1;
  }

  /**
   * A well-formed address with a five-character message is refused with a
   * `message` entry, never accepted.
   */
  lemma ShortMessageRejected(isEmail: string -> bool)
    requires isEmail("a@b.com")
    ensures var o := Handle(true, Decoded(map[EmailPath := JsonString("a@b.com"), MessagePath := JsonString("short")]), isEmail);
      && o.response.status == 400 && o.dispatched == []
      && o.response.body == ErrorsBody(map[MessagePath := TooShortMessage])
  {
    var dto := DtoOf(map[EmailPath := JsonString("a@b.com"), MessagePath := JsonString("short")]);
    assert dto == ContactMailDto("a@b.com", "short");
    assert Validate(dto, isEmail) == [Violation(MessagePath, TooShortMessage)];
    var vs := [Violation(MessagePath, TooShortMessage)];
    assert vs[..0] == [];
  }

  /** The number of `consume` calls recorded for `key`. */
  function Attempts(attempts: map<Option<string>, nat>, key: Option<string>): nat {
    if key in attempts then attempts[key] else 0
  }

  /**
   * The limiter factory with its storage. `attempts` counts the calls of
   * `create($ip)->consume()` per key, accepted or not; it is not the
   * tokens the window policy has taken. Whether a call is accepted is
   * decided by that policy, which is not part of this model and arrives
   * as `admitted`.
   */
  class RateLimiterFactory {
    var attempts: map<Option<string>, nat>

    constructor ()
      ensures attempts == map[]
    {
      attempts := map[];
    }

    method Consume(key: Option<string>, admitted: bool) returns (accepted: bool)
      modifies this
      ensures attempts == old(attempts)[key := Attempts(old(attempts), key) + 1]
      ensures accepted == admitted
    {
      attempts := attempts[key := Attempts(attempts, key) + 1];
      accepted := admitted;
    }
  }

  /** The message bus: everything dispatched, in order. */
  class MessageBus {
    var dispatched: seq<SendContactMailMessage>

    constructor ()
      ensures dispatched == []
    {
      dispatched := [];
    }

    method Dispatch(message: SendContactMailMessage)
      modifies this
      ensures dispatched == old(dispatched) + [message]
    {
      dispatched := dispatched + [message];
    }
  }

  class ContactMailController {
    const contactMailLimiter: RateLimiterFactory

    constructor (contactMailLimiter: RateLimiterFactory)
      ensures this.contactMailLimiter == contactMailLimiter
    {
      this.contactMailLimiter := contactMailLimiter;
    }

    /**
     * One request. Exactly one `consume` call is recorded for the client's
     * key whatever happens next; the response and the dispatched messages
     * are those of `Handle`.
     */
    method Invoke(request: Request, isEmail: string -> bool, bus: MessageBus, admitted: bool)
      returns (response: JsonResponse)
      modifies contactMailLimiter, bus
      ensures contactMailLimiter.attempts ==
                old(contactMailLimiter.attempts)[request.clientIp :=
                  Attempts(old(contactMailLimiter.attempts), request.clientIp) + 1]
      ensures response == Handle(admitted, request.body, isEmail).response
      ensures bus.dispatched == old(bus.dispatched) + Handle(admitted, request.body, isEmail).dispatched
    {
      var accepted := contactMailLimiter.Consume(request.clientIp, admitted);
      if !accepted {
        return TooManyRequests;
      }
      if request.body.InvalidJson? {
        return InvalidJsonResponse;
      }
      var dto := DtoOf(request.body.members);
      var errors := Validate(dto, isEmail);
      if |errors| > 0 {
        var errorMessages := BuildErrorMap(errors);
        return JsonResponse(400, ErrorsBody(errorMessages));
      }
      bus.Dispatch(SendContactMailMessage(dto));
      return AcceptedResponse;
    }
  }
}
