/**
 * The event cache (src/stores/eventStore.ts): the events the actor belongs
 * to, the actor's role per event, and each event's member list, kept in
 * step with the EventDirectory endpoints.
 */
module Events {
  import opened Wrappers
  import opened Api
  import Lists

  /** One row of `getUserEvents`: an event of the user and the user's role in it. */
  datatype EventRow = EventRow(event: string, role: Role)

  /** An event document as `getEvent` returns it; `error` is "" when the body has none. */
  datatype EventDoc = EventDoc(id: string, title: string, startsAt: string, endsAt: string,
                               active: Scalar, error: string)

  /** The payload of `createEvent`; "" stands for a missing `event` field. */
  datatype CreatedEvent = CreatedEvent(event: string)

  /** The mapping of one document (eventStore.ts:30-37); None when a date does not parse. */
  function FromDoc(doc: EventDoc, iso: Normaliser): (r: Option<Event>)
    ensures r.Some? <==> iso(doc.startsAt).Some? && iso(doc.endsAt).Some?
    ensures r.Some? ==>
      && r.value.id == doc.id && r.value.title == doc.title
      && r.value.startsAt == iso(doc.startsAt).value && r.value.endsAt == iso(doc.endsAt).value
      && r.value.duties == [] && (r.value.active <==> Truthy(doc.active))
  {
    match (iso(doc.startsAt), iso(doc.endsAt))
    case (Some(starts), Some(ends)) => Some(Event(doc.id, doc.title, starts, ends, Truthy(doc.active), []))
    case _ => None
  }

  /** A fetched event that loadMyEvents keeps (eventStore.ts:28): data without an error field. */
  predicate Kept(f: ApiResponse<EventDoc>)
  {
    f.Data? && f.value.error == ""
  }

  /** The events loadMyEvents collects from its fetches, in order; None when
      a kept document has a date that does not parse, which throws out of the loop. */
  function Collect(fetches: seq<ApiResponse<EventDoc>>, iso: Normaliser): Option<seq<Event>>
  {
    if |fetches| == 0 then Some([])
    else
      var last := fetches[|fetches| - 1];
      match Collect(fetches[..|fetches| - 1], iso)
      case None => None
      case Some(es) =>
        if !Kept(last) then Some(es)
        else match FromDoc(last.value, iso)
          case None => None
          case Some(e) => Some(es + [e])
  }

  /** How many rows the loop of loadMyEvents reaches: all of them, or up to
      and including the one whose document throws. */
  function Reached(fetches: seq<ApiResponse<EventDoc>>, iso: Normaliser): (k: nat)
    ensures k <= |fetches|
    ensures Collect(fetches, iso).Some? ==> k == |fetches|
  {
    if |fetches| == 0 then 0
    else if Collect(fetches[..|fetches| - 1], iso).None? then Reached(fetches[..|fetches| - 1], iso)
    else |fetches|
  }

  /** `roles[row.event] = row.role` for each row in turn. */
  function RecordRoles(roles: map<string, Role>, rows: seq<EventRow>): (r: map<string, Role>)
    ensures roles.Keys <= r.Keys
  {
    if |rows| == 0 then roles
    else RecordRoles(roles, rows[..|rows| - 1])[rows[|rows| - 1].event := rows[|rows| - 1].role]
  }

  /** The `getEvent` calls of the loop, one per row in order. */
  function EventFetches(rows: seq<EventRow>): (calls: seq<Call>)
    ensures |calls| == |rows|
    ensures forall i :: 0 <= i < |rows| ==> calls[i] == GetEvent(rows[i].event)
  {
    if |rows| == 0 then [] else EventFetches(rows[..|rows| - 1]) + [GetEvent(rows[|rows| - 1].event)]
  }

  /** The load succeeds exactly when every kept document maps, and then holds
      at most one event per row. */
  lemma {:induction false} CollectSucceedsIff(fetches: seq<ApiResponse<EventDoc>>, iso: Normaliser)
    ensures Collect(fetches, iso).Some? <==>
      forall i :: 0 <= i < |fetches| && Kept(fetches[i]) ==> FromDoc(fetches[i].value, iso).Some?
    ensures Collect(fetches, iso).Some? ==> |Collect(fetches, iso).value| <= |fetches|
  {
    if |fetches| > 0 {
      var init := fetches[..|fetches| - 1];
      CollectSucceedsIff(init, iso);
      assert forall i :: 0 <= i < |init| ==> init[i] == fetches[i];
    }
  }

  /** The events of the kept fetches whose documents map, in row order: a
      reference definition read front to back, independent of `Collect`. */
  function KeptEvents(fetches: seq<ApiResponse<EventDoc>>, iso: Normaliser): seq<Event>
  {
    if |fetches| == 0 then []
    else
      (if Kept(fetches[0]) && FromDoc(fetches[0].value, iso).Some? then [FromDoc(fetches[0].value, iso).value] else [])
      + KeptEvents(fetches[1..], iso)
  }

  lemma {:induction false} KeptEventsAppend(a: seq<ApiResponse<EventDoc>>, b: seq<ApiResponse<EventDoc>>, iso: Normaliser)
    ensures KeptEvents(a + b, iso) == KeptEvents(a, iso) + KeptEvents(b, iso)
  {
    if |a| > 0 {
      assert (a + b)[0] == a[0];
      assert (a + b)[1..] == a[1..] + b;
      KeptEventsAppend(a[1..], b, iso);
    } else {
      assert a + b == b;
    }
  }

  /** When the load succeeds, its events are exactly the kept fetches' mapped
      documents, in row order. */
  lemma {:induction false} CollectInRowOrder(fetches: seq<ApiResponse<EventDoc>>, iso: Normaliser)
    ensures Collect(fetches, iso).Some? ==> Collect(fetches, iso).value == KeptEvents(fetches, iso)
  {
    if |fetches| > 0 {
      var init, last := fetches[..|fetches| - 1], fetches[|fetches| - 1];
      CollectInRowOrder(init, iso);
      assert fetches == init + [last];
      KeptEventsAppend(init, [last], iso);
      assert [last][1..] == [];
    }
  }

  /** Every row's event gets a role, and no other event does. */
  lemma {:induction false} RolesRecorded(roles: map<string, Role>, rows: seq<EventRow>)
    ensures RecordRoles(roles, rows).Keys == roles.Keys + set i | 0 <= i < |rows| :: rows[i].event
  {
    if |rows| > 0 {
      var init, last := rows[..|rows| - 1], rows[|rows| - 1];
      RolesRecorded(roles, init);
      var all := set i | 0 <= i < |rows| :: rows[i].event;
      var before := set i | 0 <= i < |init| :: init[i].event;
      forall e | e in all ensures e in before + {last.event} {
        var i :| 0 <= i < |rows| && rows[i].event == e;
        if i < |init| {
          assert init[i].event == e;
        }
      }
      forall e | e in before ensures e in all {
        var i :| 0 <= i < |init| && init[i].event == e;
        assert rows[i].event == e;
      }
      assert last.event in all;
    }
  }

  /** The last row naming an event decides its role, whether or not the
      event's fetch succeeds. */
  lemma {:induction false} LastRowDecides(roles: map<string, Role>, rows: seq<EventRow>, i: nat)
    requires i < |rows|
    requires forall j :: i < j < |rows| ==> rows[j].event != rows[i].event
    ensures rows[i].event in RecordRoles(roles, rows) && RecordRoles(roles, rows)[rows[i].event] == rows[i].role
  {
    if i < |rows| - 1 {
      var init := rows[..|rows| - 1];
      assert init[i] == rows[i];
      assert forall j :: i < j < |init| ==> init[j] == rows[j];
      LastRowDecides(roles, init, i);
    }
  }

  /** An event no row names keeps its role. */
  lemma {:induction false} UnnamedKeepRole(roles: map<string, Role>, rows: seq<EventRow>, e: string)
    requires e in roles
    requires forall i :: 0 <= i < |rows| ==> rows[i].event != e
    ensures e in RecordRoles(roles, rows) && RecordRoles(roles, rows)[e] == roles[e]
  {
    if |rows| > 0 {
      var init := rows[..|rows| - 1];
      assert forall i :: 0 <= i < |init| ==> init[i] == rows[i];
      UnnamedKeepRole(roles, init, e);
    }
  }

  /** Once a prefix of the fetches throws, the whole loop throws. */
  lemma {:induction false} CollectPrefixThrows(fetches: seq<ApiResponse<EventDoc>>, j: nat, iso: Normaliser)
    requires j <= |fetches| && Collect(fetches[..j], iso).None?
    ensures Collect(fetches, iso).None?
  {
    if j < |fetches| {
      var init := fetches[..|fetches| - 1];
      assert init[..j] == fetches[..j];
      CollectPrefixThrows(init, j, iso);
    } else {
      assert fetches[..j] == fetches;
    }
  }

  /** The loop stops right after the first row whose document throws. */
  lemma {:induction false} ReachedAt(fetches: seq<ApiResponse<EventDoc>>, i: nat, iso: Normaliser)
    requires i < |fetches|
    requires Collect(fetches[..i], iso).Some? && Collect(fetches[..i + 1], iso).None?
    ensures Reached(fetches, iso) == i + 1
  {
    var init := fetches[..|fetches| - 1];
    if |fetches| == i + 1 {
      assert init == fetches[..i];
    } else {
      assert init[..i + 1] == fetches[..i + 1];
      assert init[..i] == fetches[..i];
      CollectPrefixThrows(init, i + 1, iso);
      ReachedAt(init, i, iso);
    }
  }

  /** Collecting is done fetch by fetch: the events of a concatenation are
      those of each part, in order. */
  lemma {:induction false} CollectAppend(a: seq<ApiResponse<EventDoc>>, b: seq<ApiResponse<EventDoc>>, iso: Normaliser)
    requires Collect(a, iso).Some? && Collect(b, iso).Some?
    ensures Collect(a + b, iso) == Some(Collect(a, iso).value + Collect(b, iso).value)
  {
    if |b| == 0 {
      assert a + b == a;
      assert Collect(a, iso).value + [] == Collect(a, iso).value;
    } else {
      var binit := b[..|b| - 1];
      assert Collect(binit, iso).Some?;
      assert (a + b)[..|a + b| - 1] == a + binit;
      assert (a + b)[|a + b| - 1] == b[|b| - 1];
      CollectAppend(a, binit, iso);
      var ea, eb := Collect(a, iso).value, Collect(binit, iso).value;
      assert Collect(a + binit, iso) == Some(ea + eb);
      var last := b[|b| - 1];
      if Kept(last) {
        var e := FromDoc(last.value, iso).value;
        assert Collect(b, iso) == Some(eb + [e]);
        assert Collect(a + b, iso) == Some((ea + eb) + [e]);
        assert (ea + eb) + [e] == ea + (eb + [e]);
      }
    }
  }

  /** No de-duplication: when every fetch is kept and maps, there is one event
      per row, in row order, so a repeated row gives a repeated entry. */
  lemma {:induction false} CollectKeepsEveryRow(fetches: seq<ApiResponse<EventDoc>>, iso: Normaliser)
    requires forall i :: 0 <= i < |fetches| ==>
               fetches[i].Data? && fetches[i].value.error == "" && FromDoc(fetches[i].value, iso).Some?
    ensures Collect(fetches, iso).Some?
    ensures |Collect(fetches, iso).value| == |fetches|
    ensures forall i :: 0 <= i < |fetches| ==> Collect(fetches, iso).value[i] == FromDoc(fetches[i].value, iso).value
  {
    if |fetches| > 0 {
      var init := fetches[..|fetches| - 1];
      CollectKeepsEveryRow(init, iso);
    }
  }

  /** One more row: its role is recorded last and its event fetched last. */
  lemma RowStep(roles: map<string, Role>, rows: seq<EventRow>, i: nat)
    requires i < |rows|
    ensures RecordRoles(roles, rows[..i + 1]) == RecordRoles(roles, rows[..i])[rows[i].event := rows[i].role]
    ensures EventFetches(rows[..i + 1]) == EventFetches(rows[..i]) + [GetEvent(rows[i].event)]
  {
    assert rows[..i + 1][..i] == rows[..i];
  }

  /** One more fetch: skipped when not kept, appended when it maps, and
      throwing when its date does not parse. */
  lemma CollectStep(fetches: seq<ApiResponse<EventDoc>>, i: nat, loaded: seq<Event>, iso: Normaliser)
    requires i < |fetches| && Collect(fetches[..i], iso) == Some(loaded)
    ensures !Kept(fetches[i]) ==> Collect(fetches[..i + 1], iso) == Some(loaded)
    ensures Kept(fetches[i]) && FromDoc(fetches[i].value, iso).Some? ==>
      Collect(fetches[..i + 1], iso) == Some(loaded + [FromDoc(fetches[i].value, iso).value])
    ensures Kept(fetches[i]) && FromDoc(fetches[i].value, iso).None? ==> Collect(fetches[..i + 1], iso).None?
  {
    assert fetches[..i + 1][..i] == fetches[..i];
  }

  /**
   * The loop of loadMyEvents, row by row: record the row's role, fetch its
   * event, keep the document when it maps.  The first document whose date
   * throws ends the walk, with the roles recorded and the calls made so far.
   */
  method WalkRows(roles: map<string, Role>, rows: seq<EventRow>, fetches: seq<ApiResponse<EventDoc>>,
                  iso: Normaliser)
    returns (recorded: map<string, Role>, calls: seq<Call>, loaded: Option<seq<Event>>)
    requires |fetches| == |rows|
    ensures var k := Reached(fetches, iso);
      recorded == RecordRoles(roles, rows[..k]) && calls == EventFetches(rows[..k])
    ensures loaded == Collect(fetches, iso)
  {
    var kept: seq<Event> := [];
    recorded, calls := roles, [];
    var i := 0;
    while i < |rows|
      invariant 0 <= i <= |rows|
      invariant Collect(fetches[..i], iso) == Some(kept)
      invariant recorded == RecordRoles(roles, rows[..i])
      invariant calls == EventFetches(rows[..i])
    {
      RowStep(roles, rows, i);
      CollectStep(fetches, i, kept, iso);
      recorded := recorded[rows[i].event := rows[i].role];
      calls := calls + [GetEvent(rows[i].event)];
      var fetched := fetches[i];
      if Kept(fetched) {
        var e := FromDoc(fetched.value, iso);
        if e.None? {
          ReachedAt(fetches, i, iso);
          CollectPrefixThrows(fetches, i + 1, iso);
          return recorded, calls, None;
        }
        kept := kept + [e.value];
      }
      i := i + 1;
    }
    assert fetches[..i] == fetches;
    assert rows[..i] == rows;
    loaded := Some(kept);
  }

  /** `e.active = flag` (eventStore.ts:99). */
  function ActivePatch(flag: bool): Event -> Event
  {
    (e: Event) => e.(active := flag)
  }

  /** setActive writes the flag and nothing else; writing it twice is writing it once. */
  lemma ActivePatchEffect(flag: bool, e: Event)
    ensures var p := ActivePatch(flag)(e);
      p.active == flag && p.(active := e.active) == e && ActivePatch(flag)(p) == p
  {
  }

  const DefaultActor: string := "actor-1"

  class EventStore {
    /** Exported as writable state; no `setActor` is exported. */
    var currentActor: string
    var events: seq<Event>
    /** Members per event id. */
    var members: map<string, seq<Member>>
    /** The actor's role per event id. */
    var roles: map<string, Role>
    var loading: bool
    var error: Option<string>

    constructor()
      ensures currentActor == DefaultActor && events == [] && members == map[] && roles == map[]
      ensures !loading && error == None
    {
      currentActor := DefaultActor;
      events := [];
      members := map[];
      roles := map[];
      loading := false;
      error := None;
    }

    /**
     * loadMyEvents: on an error reply for the rows nothing but `error`
     * changes.  Otherwise, row by row, the role is recorded and the event
     * fetched; the kept documents replace `events` in row order.  A date that
     * does not parse throws: the roles recorded so far stay, `events` does not.
     */
    method LoadMyEvents(rowsReply: ApiResponse<seq<EventRow>>, fetches: seq<ApiResponse<EventDoc>>, iso: Normaliser)
      returns (sent: seq<Call>)
      requires rowsReply.Data? ==> |fetches| == |rowsReply.value|
      modifies this`loading, this`error, this`events, this`roles
      ensures !loading
      ensures rowsReply.Failure? ==>
        sent == [GetUserEvents(currentActor)] && error == Some(rowsReply.message)
        && events == old(events) && roles == old(roles)
      ensures rowsReply.Data? ==>
        var k := Reached(fetches, iso);
        && roles == RecordRoles(old(roles), rowsReply.value[..k])
        && sent == [GetUserEvents(currentActor)] + EventFetches(rowsReply.value[..k])
        && (Collect(fetches, iso).Some? ==> error == None && events == Collect(fetches, iso).value)
        && (Collect(fetches, iso).None? ==> error == Some("Failed to load events") && events == old(events))
    {
      loading, error := true, None;
      sent := [GetUserEvents(currentActor)];
      if rowsReply.Failure? {
        error, loading := Some(rowsReply.message), false;
        return;
      }
      var recorded, calls, loaded := WalkRows(roles, rowsReply.value, fetches, iso);
      roles, sent := recorded, sent + calls;
      if loaded.None? {
        error := Some("Failed to load events");
      } else {
        events := loaded.value;
      }
      loading := false;
    }

    /**
     * createEvent: when the reply names the new event and its document is
     * fetched, exactly one event is put in front of the list (existing
     * entries, even with the same id, are kept) and the actor's role for it
     * is Organizer.
     */
    method CreateEvent(title: string, startsAt: string, endsAt: string,
                       reply: ApiResponse<CreatedEvent>, fetched: ApiResponse<EventDoc>, iso: Normaliser)
      returns (sent: seq<Call>)
      modifies this`loading, this`error, this`events, this`roles
      ensures !loading && |sent| >= 1 && sent[0] == Call.CreateEvent(currentActor, title, startsAt, endsAt)
      ensures reply.Failure? ==>
        sent == sent[..1] && error == Some(reply.message) && events == old(events) && roles == old(roles)
      ensures reply.Data? && reply.value.event == "" ==>
        sent == sent[..1] && error == None && events == old(events) && roles == old(roles)
      ensures reply.Data? && reply.value.event != "" ==>
        && sent == sent[..1] + [GetEvent(reply.value.event)]
        && (fetched.Failure? ==> error == None && events == old(events) && roles == old(roles))
        && (fetched.Data? && FromDoc(fetched.value, iso).None? ==>
              error == Some("Failed to create event") && events == old(events) && roles == old(roles))
        && (fetched.Data? && FromDoc(fetched.value, iso).Some? ==>
              && error == None
              && events == [FromDoc(fetched.value, iso).value] + old(events)
              && roles == old(roles)[fetched.value.id := Organizer])
    {
      loading, error := true, None;
      sent := [Call.CreateEvent(currentActor, title, startsAt, endsAt)];
      if reply.Failure? {
        error, loading := Some(reply.message), false;
        return;
      }
      if reply.value.event != "" {
        sent := sent + [GetEvent(reply.value.event)];
        if fetched.Data? {
          var e := FromDoc(fetched.value, iso);
          if e.None? {
            error := Some("Failed to create event");
          } else {
            events := [e.value] + events;
            roles := roles[fetched.value.id := Organizer];
          }
        }
      }
      loading := false;
    }

    /** loadMembers: on success only `members[eventId]` is replaced; `loading` is not touched. */
    method LoadMembers(eventId: string, reply: ApiResponse<seq<Member>>)
      returns (sent: seq<Call>)
      modifies this`error, this`members
      ensures sent == [GetEventMembers(eventId)]
      ensures reply.Failure? ==> error == Some(reply.message) && members == old(members)
      ensures reply.Data? ==> error == old(error) && members == old(members)[eventId := reply.value]
    {
      sent := [GetEventMembers(eventId)];
      if reply.Failure? {
        error := Some(reply.message);
      } else {
        members := members[eventId := reply.value];
      }
    }

    /** inviteMember: write, then reload that event's members. */
    method InviteMember(eventId: string, invitee: string, role: Role,
                        reply: ApiResponse<()>, membersReply: ApiResponse<seq<Member>>)
      returns (sent: seq<Call>)
      modifies this`error, this`members
      ensures reply.Failure? ==>
        sent == [Invite(eventId, currentActor, invitee, role)] && error == Some(reply.message) && members == old(members)
      ensures reply.Data? ==>
        sent == [Invite(eventId, currentActor, invitee, role), GetEventMembers(eventId)]
        && (membersReply.Failure? ==> error == Some(membersReply.message) && members == old(members))
        && (membersReply.Data? ==> error == old(error) && members == old(members)[eventId := membersReply.value])
    {
      sent := [Invite(eventId, currentActor, invitee, role)];
      if reply.Failure? {
        error := Some(reply.message);
        return;
      }
      var more := LoadMembers(eventId, membersReply);
      sent := sent + more;
    }

    /** removeMember: write, then reload that event's members. */
    method RemoveMember(eventId: string, member: string,
                        reply: ApiResponse<()>, membersReply: ApiResponse<seq<Member>>)
      returns (sent: seq<Call>)
      modifies this`error, this`members
      ensures reply.Failure? ==>
        sent == [Call.RemoveMember(eventId, currentActor, member)] && error == Some(reply.message) && members == old(members)
      ensures reply.Data? ==>
        sent == [Call.RemoveMember(eventId, currentActor, member), GetEventMembers(eventId)]
        && (membersReply.Failure? ==> error == Some(membersReply.message) && members == old(members))
        && (membersReply.Data? ==> error == old(error) && members == old(members)[eventId := membersReply.value])
    {
      sent := [Call.RemoveMember(eventId, currentActor, member)];
      if reply.Failure? {
        error := Some(reply.message);
        return;
      }
      var more := LoadMembers(eventId, membersReply);
      sent := sent + more;
    }

    /** setActive: on success only the first event with that id takes the flag. */
    method SetActive(eventId: string, flag: bool, reply: ApiResponse<()>)
      returns (sent: seq<Call>)
      modifies this`error, this`events
      ensures sent == [Call.SetActive(eventId, currentActor, flag)]
      ensures reply.Failure? ==> error == Some(reply.message) && events == old(events)
      ensures reply.Data? ==>
        error == old(error) && events == Lists.PatchFirst(old(events), EventId, eventId, ActivePatch(flag))
    {
      sent := [Call.SetActive(eventId, currentActor, flag)];
      if reply.Failure? {
        error := Some(reply.message);
      } else {
        events := Lists.PatchFirst(events, EventId, eventId, ActivePatch(flag));
      }
    }

    /** deleteEvent: on success every event with that id goes, and only that
        id's member list and role are dropped. */
    method DeleteEvent(eventId: string, reply: ApiResponse<()>)
      returns (sent: seq<Call>)
      modifies this`error, this`events, this`members, this`roles
      ensures sent == [Call.DeleteEvent(eventId, currentActor)]
      ensures reply.Failure? ==>
        error == Some(reply.message) && events == old(events) && members == old(members) && roles == old(roles)
      ensures reply.Data? ==>
        && error == old(error)
        && events == Lists.Without(old(events), EventId, eventId)
        && members == old(members) - {eventId}
        && roles == old(roles) - {eventId}
    {
      sent := [Call.DeleteEvent(eventId, currentActor)];
      if reply.Failure? {
        error := Some(reply.message);
      } else {
        events := Lists.Without(events, EventId, eventId);
        members := members - {eventId};
        roles := roles - {eventId};
      }
    }
  }
}
