/**
 * The transport facade (src/services/api.ts): the record shapes the stores
 * share, the uniform `ApiResponse` result, the classification of a transport
 * outcome into that result (`request`), and the request each DutyRoster
 * method posts.  It also names every `apiService` method the stores call, so
 * that a store action can report which calls it issued and under which actor.
 */
module Api {
  import opened Wrappers

  /** An error message.  The stores test `if (res.error)`, which is false for
      "", and every message `request` builds is non-empty. */
  type ErrorText = s: string | s != "" witness "error"

  /** `ApiResponse<T>`: exactly one of `data` and `error` is present. */
  datatype ApiResponse<+T> = Data(value: T) | Failure(message: ErrorText)

  /** A JSON scalar as the stores receive it in an untyped document field. */
  datatype Scalar = Null | Bool(b: bool) | Num(r: real) | Text(s: string)

  /** JavaScript truthiness, as used by `!!e.active` and `!!n.unread`. */
  predicate Truthy(v: Scalar)
  {
    match v
    case Null => false
    case Bool(b) => b
    case Num(r) => r != 0.0
    case Text(s) => s != ""
  }

  /** `new Date(x).toISOString()`: the canonical text of an instant, or None
      when `x` is not a date and `toISOString` throws a RangeError. */
  type Normaliser = string -> Option<string>

  datatype Status = Open | Assigned | Done

  /** `Duty` (api.ts:4-12); `assignee` is optional. */
  datatype Duty = Duty(id: string, title: string, dueAt: string, status: Status,
                       assignee: Option<string>, event: string, updatedAt: string)

  /** An event as the stores build it (startsAt/endsAt/active, duties attached). */
  datatype Event = Event(id: string, title: string, startsAt: string, endsAt: string,
                         active: bool, duties: seq<Duty>)

  datatype Role = Organizer | DutyMember

  /** One membership row, stored as the server returns it. */
  datatype Member = Member(user: string, role: Role)

  datatype Template = Template(id: string, owner: string, title: string,
                               members: seq<string>, standardDuties: seq<string>,
                               createdAt: string, updatedAt: string)

  datatype NotificationItem = NotificationItem(id: string, recipient: string, subject: string,
                                               body: string, createdAt: string, unread: bool)

  function DutyId(d: Duty): string { d.id }
  function EventId(e: Event): string { e.id }
  function TemplateId(t: Template): string { t.id }
  function NotificationId(n: NotificationItem): string { n.id }

  // ------------------------------------------------------------------
  // The calls the stores make on `apiService`
  // ------------------------------------------------------------------

  /** The DutyRoster methods of api.ts:66-106 with their arguments. */
  datatype DutyOp =
    | AddDuty(event: string, actor: string, title: string, dueAt: string)
    | AssignDuty(duty: string, actor: string, assignee: string)
    | UnassignDuty(duty: string, actor: string)
    | UpdateDuty(duty: string, actor: string, newTitle: Option<string>, newDueAt: Option<string>)
    | MarkDone(duty: string, actor: string)
    | ReOpen(duty: string, actor: string)
    | DeleteDuty(duty: string, actor: string)

  /** The optional fields of `updateTemplate`'s payload. */
  datatype TemplatePatch = TemplatePatch(title: Option<string>, members: Option<seq<string>>,
                                         standardDuties: Option<seq<string>>)

  /** One `apiService` call issued by a store, with its arguments. */
  datatype Call =
    | DutyRoster(op: DutyOp)
    | GetEventDuties(event: string)
    | GetUserEvents(user: string)
    | GetEvent(event: string)
    | CreateEvent(creator: string, title: string, startsAt: string, endsAt: string)
    | GetEventMembers(event: string)
    | Invite(event: string, inviter: string, invitee: string, role: Role)
    | RemoveMember(event: string, remover: string, member: string)
    | SetActive(event: string, setter: string, flag: bool)
    | DeleteEvent(event: string, deleter: string)
    | ListTemplates(owner: string)
    | CreateTemplate(owner: string, title: string, members: seq<string>, standardDuties: seq<string>)
    | UpdateTemplate(template: string, editor: string, patch: TemplatePatch)
    | DeleteTemplate(template: string, editor: string)
    | ApplyTemplate(template: string, event: string, applier: string)
    | ListUserNotifications(user: string, onlyUnread: bool)
    | MarkRead(notification: string, reader: string)
    | DeleteNotification(notification: string, deleter: string)
    | Login(email: string, password: string)
    | CreateAccount(email: string, password: string)

  /** The actor a call is made on behalf of, for the calls that carry one. */
  function ActorOf(c: Call): Option<string>
  {
    match c
    case DutyRoster(op) => Some(op.actor)
    case GetUserEvents(u) => Some(u)
    case CreateEvent(a, _, _, _) => Some(a)
    case Invite(_, a, _, _) => Some(a)
    case RemoveMember(_, a, _) => Some(a)
    case SetActive(_, a, _) => Some(a)
    case DeleteEvent(_, a) => Some(a)
    case ListTemplates(a) => Some(a)
    case CreateTemplate(a, _, _, _) => Some(a)
    case UpdateTemplate(_, a, _) => Some(a)
    case DeleteTemplate(_, a) => Some(a)
    case ApplyTemplate(_, _, a) => Some(a)
    case ListUserNotifications(u, _) => Some(u)
    case MarkRead(_, a) => Some(a)
    case DeleteNotification(_, a) => Some(a)
    case _ => None
  }

  /** Every call in `calls` is made on behalf of `actor`. */
  predicate AllBy(calls: seq<Call>, actor: string)
  {
    forall i :: 0 <= i < |calls| ==> ActorOf(calls[i]) == Some(actor)
  }

  // ------------------------------------------------------------------
  // `request`: transport outcome to ApiResponse (api.ts:26-63)
  // ------------------------------------------------------------------

  /** A value caught by `catch (error)`: an `Error` with its message, or anything else. */
  datatype Thrown = ErrorValue(message: string) | OtherValue

  /** What `response.json()` gave: the parsed body, or the value it threw. */
  datatype Parsed<+T> = Parsed(body: T) | Unparsable(thrown: Thrown)

  /** What `fetch` produced: it threw, or a response with its status, what
      `response.text()` gave (read when the status is not ok; it too may throw)
      and its JSON decoding (read when the status is ok). */
  datatype Outcome<+T> = Rejected(thrown: Thrown) | Responded(status: nat, text: Parsed<string>, json: Parsed<T>)

  /** `response.ok`: the status is in the range 200-299. */
  predicate Ok(status: nat) { 200 <= status <= 299 }

  function Digit(d: nat): (c: char)
    requires d < 10
    ensures '0' <= c <= '9'
  {
    ('0' as int + d) as char
  }

  function DigitValue(c: char): (d: nat)
    requires '0' <= c <= '9'
    ensures d < 10 && Digit(d) == c
  {
    (c as int - '0' as int) as nat
  }

  predicate AllDigits(s: string) { forall i :: 0 <= i < |s| ==> '0' <= s[i] <= '9' }

  /** The decimal text of a status code, as a template literal renders it. */
  function Decimal(n: nat): (s: string)
    ensures s != [] && AllDigits(s)
  {
    if n < 10 then [Digit(n)] else Decimal(n / 10) + [Digit(n % 10)]
  }

  /** Reads a non-empty run of digits back as a number. */
  function ParseDecimal(s: string): nat
    requires s != [] && AllDigits(s)
  {
    if |s| == 1 then DigitValue(s[0])
    else 10 * ParseDecimal(s[..|s| - 1]) + DigitValue(s[|s| - 1])
  }

  lemma {:induction false} DecimalRoundTrip(n: nat)
    ensures ParseDecimal(Decimal(n)) == n
  {
    if n >= 10 {
      var s := Decimal(n);
      assert s[..|s| - 1] == Decimal(n / 10) && s[|s| - 1] == Digit(n % 10);
      DecimalRoundTrip(n / 10);
      assert n == 10 * (n / 10) + n % 10;
    }
  }

  /** The message of a non-ok response (api.ts:53). */
  function HttpError(status: nat, text: string): ErrorText
  {
    "HTTP " + Decimal(status) + ": " + text
  }

  /** An HTTP error message is "HTTP ", the status in decimal, ": ", then the body text. */
  lemma HttpErrorLayout(status: nat, text: string)
    ensures var r := HttpError(status, text);
      && |r| == 7 + |Decimal(status)| + |text|
      && r[..5] == "HTTP " && r[5..5 + |Decimal(status)|] == Decimal(status)
      && r[5 + |Decimal(status)|..7 + |Decimal(status)|] == ": " && r[7 + |Decimal(status)|..] == text
  {
  }

  /** The message of a thrown failure (api.ts:61). */
  function NetworkError(t: Thrown): ErrorText
  {
    "Network error: " + (if t.ErrorValue? then t.message else "Unknown error")
  }

  /** A network error message is "Network error: " then the thrown Error's
      message, or "Unknown error" when something other than an Error was thrown. */
  lemma NetworkErrorLayout(t: Thrown)
    ensures var r := NetworkError(t);
      && |r| >= 15 && r[..15] == "Network error: "
      && r[15..] == if t.ErrorValue? then t.message else "Unknown error"
  {
  }

  /**
   * `request`: a non-ok status with a readable body gives its HTTP error; an
   * ok status with a decodable body passes that body through as data, whatever
   * it contains; a rejected fetch, an unreadable error body or an undecodable
   * body gives a network error.  The
   * result never has both or neither of data and error.
   */
  function Request<T>(o: Outcome<T>): (r: ApiResponse<T>)
    ensures r.Data? <==> o.Responded? && Ok(o.status) && o.json.Parsed?
    ensures r.Data? ==> r.value == o.json.body
    ensures o.Responded? && !Ok(o.status) && o.text.Parsed? ==> r == Failure(HttpError(o.status, o.text.body))
    ensures o.Responded? && !Ok(o.status) && o.text.Unparsable? ==> r == Failure(NetworkError(o.text.thrown))
    ensures o.Rejected? ==> r == Failure(NetworkError(o.thrown))
    ensures o.Responded? && Ok(o.status) && o.json.Unparsable? ==> r == Failure(NetworkError(o.json.thrown))
  {
    match o
    case Rejected(t) => Failure(NetworkError(t))
    case Responded(status, text, json) =>
      if !Ok(status) then
        match text
        case Parsed(errorText) => Failure(HttpError(status, errorText))
        case Unparsable(t) => Failure(NetworkError(t))
      else match json
        case Parsed(body) => Data(body)
        case Unparsable(t) => Failure(NetworkError(t))
  }

  /** The position of the first ':' in `s` at or after `from`, if any. */
  function ColonFrom(s: string, from: nat): (k: Option<nat>)
    requires from <= |s|
    ensures k.Some? ==> from <= k.value < |s| && s[k.value] == ':' &&
                        forall j :: from <= j < k.value ==> s[j] != ':'
    ensures k.None? ==> forall j :: from <= j < |s| ==> s[j] != ':'
    decreases |s| - from
  {
    if from == |s| then None
    else if s[from] == ':' then Some(from)
    else ColonFrom(s, from + 1)
  }

  /** Reads the status and the body text back out of an error message. */
  function ParseHttpError(msg: string): Option<(nat, string)>
  {
    if |msg| < 5 || msg[..5] != "HTTP " then None
    else match ColonFrom(msg, 5)
      case None => None
      case Some(k) =>
        var digits := msg[5..k];
        if digits != [] && AllDigits(digits) && k + 1 < |msg| && msg[k + 1] == ' '
        then Some((ParseDecimal(digits), msg[k + 2..]))
        else None
  }

  /** The two kinds of error message are told apart by their text, and an
      HTTP error carries its status and body text recoverably. */
  lemma {:induction false} ErrorMessagesDecode(status: nat, text: string, t: Thrown)
    ensures ParseHttpError(HttpError(status, text)) == Some((status, text))
    ensures ParseHttpError(NetworkError(t)) == None
  {
    var d := Decimal(status);
    var m := HttpError(status, text);
    assert m == "HTTP " + d + ": " + text;
    assert m[..5] == "HTTP ";
    var k := 5 + |d|;
    assert m[k] == ':';
    forall j | 5 <= j < k ensures m[j] != ':' {
      assert m[j] == d[j - 5];
    }
    assert ColonFrom(m, 5) == Some(k);
    assert m[5..k] == d;
    assert m[k + 2..] == text;
    DecimalRoundTrip(status);
    var n := NetworkError(t);
    assert n[..5] == "Netwo";
  }

  /** An example: a 500 response with body "server exploded" becomes the error "HTTP 500: server exploded". */
  lemma ServerExploded<T>(j: Parsed<T>)
    ensures Request(Responded(500, Parsed("server exploded"), j)) == Failure("HTTP 500: server exploded")
  {
    Decimal500();
    assert !Ok(500);
    var msg := HttpError(500, "server exploded");
    assert msg == "HTTP 500: server exploded" by {
      assert msg == "HTTP " + "500" + ": " + "server exploded";
    }
  }

  lemma Decimal500()
    ensures Decimal(500) == "500"
  {
    assert Digit(0) == '0' && Digit(5) == '5';
    assert Decimal(5) == "5";
    assert Decimal(50) == "5" + "0";
    assert Decimal(500) == "50" + "0";
  }

  // ------------------------------------------------------------------
  // The requests the DutyRoster methods post (api.ts:66-106)
  // ------------------------------------------------------------------

  const ApiBaseUrl: string := "http://localhost:8000/api"

  /** One member of a JSON body; `JSON.stringify` drops members whose value is undefined. */
  datatype Field = Field(name: string, value: string)

  /** A POST of a JSON object body to `url`. */
  datatype Post = Post(url: string, body: seq<Field>)

  function OpName(op: DutyOp): string
  {
    match op
    case AddDuty(_, _, _, _) => "addDuty"
    case AssignDuty(_, _, _) => "assignDuty"
    case UnassignDuty(_, _) => "unassignDuty"
    case UpdateDuty(_, _, _, _) => "updateDuty"
    case MarkDone(_, _) => "markDone"
    case ReOpen(_, _) => "reOpen"
    case DeleteDuty(_, _) => "deleteDuty"
  }

  /** The first body member: the event for `addDuty`, the duty otherwise. */
  function Subject(op: DutyOp): Field
  {
    if op.AddDuty? then Field("event", op.event) else Field("duty", op.duty)
  }

  function OptionalField(name: string, v: Option<string>): seq<Field>
  {
    if v.Some? then [Field(name, v.value)] else []
  }

  /** The request a DutyRoster method sends: path `/DutyRoster/<op>`, body led
      by the subject id and the actor, then the operation's own fields. */
  function Endpoint(op: DutyOp): (p: Post)
    ensures p.url == ApiBaseUrl + "/DutyRoster/" + OpName(op)
    ensures |p.body| >= 2 && p.body[0] == Subject(op) && p.body[1] == Field("actor", op.actor)
  {
    var head := [Subject(op), Field("actor", op.actor)];
    var url := ApiBaseUrl + "/DutyRoster/" + OpName(op);
    match op
    case AddDuty(_, _, title, dueAt) => Post(url, head + [Field("title", title), Field("dueAt", dueAt)])
    case AssignDuty(_, _, assignee) => Post(url, head + [Field("assignee", assignee)])
    case UpdateDuty(_, _, title, dueAt) =>
      Post(url, head + OptionalField("title", title) + OptionalField("dueAt", dueAt))
    case _ => Post(url, head)
  }

  /** Reads the operation back from the path and body a DutyRoster method sends. */
  function DecodeDutyPost(p: Post): Option<DutyOp>
  {
    var prefix := ApiBaseUrl + "/DutyRoster/";
    if |p.url| < |prefix| || p.url[..|prefix|] != prefix || |p.body| < 2 || p.body[1].name != "actor"
    then None
    else
      var name, subject, actor, rest := p.url[|prefix|..], p.body[0], p.body[1].value, p.body[2..];
      if name == "addDuty" then
        if subject.name == "event" && |rest| == 2 && rest[0].name == "title" && rest[1].name == "dueAt"
        then Some(AddDuty(subject.value, actor, rest[0].value, rest[1].value)) else None
      else if subject.name != "duty" then None
      else if name == "assignDuty" then
        if |rest| == 1 && rest[0].name == "assignee" then Some(AssignDuty(subject.value, actor, rest[0].value)) else None
      else if name == "updateDuty" then
        if rest == [] then Some(UpdateDuty(subject.value, actor, None, None))
        else if |rest| == 2 && rest[0].name == "title" && rest[1].name == "dueAt"
        then Some(UpdateDuty(subject.value, actor, Some(rest[0].value), Some(rest[1].value)))
        else if |rest| == 1 && rest[0].name == "title" then Some(UpdateDuty(subject.value, actor, Some(rest[0].value), None))
        else if |rest| == 1 && rest[0].name == "dueAt" then Some(UpdateDuty(subject.value, actor, None, Some(rest[0].value)))
        else None
      else if rest != [] then None
      else if name == "unassignDuty" then Some(UnassignDuty(subject.value, actor))
      else if name == "markDone" then Some(MarkDone(subject.value, actor))
      else if name == "reOpen" then Some(ReOpen(subject.value, actor))
      else if name == "deleteDuty" then Some(DeleteDuty(subject.value, actor))
      else None
  }

  /** No two DutyRoster calls post the same request: each request determines its call. */
  lemma {:induction false} EndpointDecodes(op: DutyOp)
    ensures DecodeDutyPost(Endpoint(op)) == Some(op)
  {
    var prefix := ApiBaseUrl + "/DutyRoster/";
    var p := Endpoint(op);
    assert p.url[..|prefix|] == prefix;
    assert p.url[|prefix|..] == OpName(op);
    assert p.body[2..] == Endpoint(op).body[2..];
  }
}
