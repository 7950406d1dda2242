/**
 * The duty cache (src/stores/dutyStore.ts): the duties of the current event,
 * their status views, the local-only archive marks, and the actions that
 * call the DutyRoster endpoints and then patch the cached list.
 */
module Duties {
  import opened Wrappers
  import opened Api
  import Lists

  /** A duty document as `getEventDuties` returns it (its `_id` in `id`). */
  datatype DutyDoc = DutyDoc(id: string, title: string, dueAt: string, status: Status,
                             assignee: Option<string>, event: string, updatedAt: string)

  /** The mapping of one document (dutyStore.ts:69-77); None when a date does not parse. */
  function FromDoc(doc: DutyDoc, iso: Normaliser): (r: Option<Duty>)
    ensures r.Some? <==> iso(doc.dueAt).Some? && iso(doc.updatedAt).Some?
    ensures r.Some? ==>
      && r.value.id == doc.id && r.value.title == doc.title && r.value.status == doc.status
      && r.value.assignee == doc.assignee && r.value.event == doc.event
      && r.value.dueAt == iso(doc.dueAt).value && r.value.updatedAt == iso(doc.updatedAt).value
  {
    match (iso(doc.dueAt), iso(doc.updatedAt))
    case (Some(due), Some(updated)) =>
      Some(Duty(doc.id, doc.title, due, doc.status, doc.assignee, doc.event, updated))
    case _ => None
  }

  function DocMapper(iso: Normaliser): DutyDoc -> Option<Duty>
  {
    doc => FromDoc(doc, iso)
  }

  // ------------------------------------------------------------------
  // Status views (dutyStore.ts:19-29)
  // ------------------------------------------------------------------

  /** `duties.filter(d => d.status === st)`. */
  function WithStatus(ds: seq<Duty>, st: Status): (r: seq<Duty>)
    ensures |r| <= |ds|
    ensures forall i :: 0 <= i < |r| ==> r[i].status == st
  {
    if |ds| == 0 then []
    else if ds[0].status == st then [ds[0]] + WithStatus(ds[1..], st)
    else WithStatus(ds[1..], st)
  }

  /** A duty is in a status view exactly when it is in the list and has that status. */
  lemma {:induction false} WithStatusMembers(ds: seq<Duty>, st: Status)
    ensures forall x :: x in WithStatus(ds, st) <==> x in ds && x.status == st
  {
    if |ds| > 0 {
      var d, rest := ds[0], ds[1..];
      assert ds == [d] + rest;
      WithStatusMembers(rest, st);
      WithStatusCons(d, rest, st);
    }
  }

  /** The three views keep the list's order: viewing a concatenation views each part. */
  lemma {:induction false} WithStatusAppend(a: seq<Duty>, b: seq<Duty>, st: Status)
    ensures WithStatus(a + b, st) == WithStatus(a, st) + WithStatus(b, st)
  {
    if |a| > 0 {
      var d, rest := a[0], a[1..];
      assert a + b == [d] + (rest + b);
      WithStatusAppend(rest, b, st);
      WithStatusCons(d, rest + b, st);
      WithStatusCons(d, rest, st);
      assert a == [d] + rest;
    } else {
      assert a + b == b;
    }
  }

  /** `filter` by status peels off the first duty. */
  lemma WithStatusCons(d: Duty, rest: seq<Duty>, st: Status)
    ensures WithStatus([d] + rest, st) == if d.status == st then [d] + WithStatus(rest, st) else WithStatus(rest, st)
  {
    assert ([d] + rest)[1..] == rest;
  }

  /** One duty value at a time: its copies in the three views add up to its copies in the list. */
  lemma {:induction false} StatusViewsCount(ds: seq<Duty>, x: Duty)
    ensures multiset(WithStatus(ds, Open))[x] + multiset(WithStatus(ds, Assigned))[x]
            + multiset(WithStatus(ds, Done))[x] == multiset(ds)[x]
  {
    if |ds| > 0 {
      var d, rest := ds[0], ds[1..];
      assert ds == [d] + rest;
      StatusViewsCount(rest, x);
      WithStatusCons(d, rest, Open);
      WithStatusCons(d, rest, Assigned);
      WithStatusCons(d, rest, Done);
    }
  }

  /** The open, assigned and done views partition the list: every duty, with
      its multiplicity, is in exactly the view of its own status. */
  lemma StatusViewsPartition(ds: seq<Duty>)
    ensures multiset(WithStatus(ds, Open)) + multiset(WithStatus(ds, Assigned)) + multiset(WithStatus(ds, Done))
            == multiset(ds)
  {
    var views := multiset(WithStatus(ds, Open)) + multiset(WithStatus(ds, Assigned)) + multiset(WithStatus(ds, Done));
    forall x ensures views[x] == multiset(ds)[x] {
      StatusViewsCount(ds, x);
    }
  }

  /** Hence the three views together are exactly as long as the list, and a
      duty is in a view exactly when it has that view's status. */
  lemma StatusViewsCover(ds: seq<Duty>)
    ensures |WithStatus(ds, Open)| + |WithStatus(ds, Assigned)| + |WithStatus(ds, Done)| == |ds|
    ensures forall i, st :: 0 <= i < |ds| ==> (ds[i] in WithStatus(ds, st) <==> ds[i].status == st)
  {
    StatusViewsPartition(ds);
    var o, a, n := WithStatus(ds, Open), WithStatus(ds, Assigned), WithStatus(ds, Done);
    assert |multiset(o) + multiset(a) + multiset(n)| == |multiset(ds)|;
  }

  // ------------------------------------------------------------------
  // The patches the actions apply to the duty found by id
  // ------------------------------------------------------------------

  /** assignDuty (dutyStore.ts:167-169): the duty becomes Assigned to `assignee`,
      stamped `now`; nothing else about it changes. */
  function AssignPatch(assignee: string, now: string): Duty -> Duty
  {
    (d: Duty) => d.(status := Assigned, assignee := Some(assignee), updatedAt := now)
  }

  /** unassignDuty (dutyStore.ts:195-197): the duty becomes Open with no
      assignee, stamped `now`; nothing else about it changes. */
  function UnassignPatch(now: string): Duty -> Duty
  {
    (d: Duty) => d.(status := Open, assignee := None, updatedAt := now)
  }

  /** markDone (dutyStore.ts:221-222): the duty becomes Done, stamped `now`;
      the assignee and everything else are kept. */
  function DonePatch(now: string): Duty -> Duty
  {
    (d: Duty) => d.(status := Done, updatedAt := now)
  }

  /** reOpen (dutyStore.ts:246-247): the duty becomes Open, stamped `now`;
      the assignee and everything else are kept. */
  function ReOpenPatch(now: string): Duty -> Duty
  {
    (d: Duty) => d.(status := Open, updatedAt := now)
  }

  /** A JavaScript optional string argument as `if (x)` reads it: present and non-empty. */
  predicate Given(x: Option<string>) { x.Some? && x.value != "" }

  /** updateDuty (dutyStore.ts:294-296): only non-empty arguments are written,
      the duty is always stamped `now`, and its status and assignee are kept. */
  function EditPatch(title: Option<string>, dueAt: Option<string>, now: string): Duty -> Duty
  {
    (d: Duty) => d.(title := if Given(title) then title.value else d.title,
            dueAt := if Given(dueAt) then dueAt.value else d.dueAt,
            updatedAt := now)
  }

  /** The effect of each patch on one duty: the fields the action writes
      take their new values, every other field is kept, and (except for
      updateDuty, whose effect depends on the arguments) applying the patch
      again changes nothing. */
  lemma AssignPatchEffect(assignee: string, now: string, d: Duty)
    ensures var p := AssignPatch(assignee, now)(d);
      && p.status == Assigned && p.assignee == Some(assignee) && p.updatedAt == now
      && p.(status := d.status, assignee := d.assignee, updatedAt := d.updatedAt) == d
      && AssignPatch(assignee, now)(p) == p
  {
  }

  lemma UnassignPatchEffect(now: string, d: Duty)
    ensures var p := UnassignPatch(now)(d);
      && p.status == Open && p.assignee == None && p.updatedAt == now
      && p.(status := d.status, assignee := d.assignee, updatedAt := d.updatedAt) == d
      && UnassignPatch(now)(p) == p
  {
  }

  lemma DonePatchEffect(now: string, d: Duty)
    ensures var p := DonePatch(now)(d);
      && p.status == Done && p.assignee == d.assignee && p.updatedAt == now
      && p.(status := d.status, updatedAt := d.updatedAt) == d
      && DonePatch(now)(p) == p
  {
  }

  lemma ReOpenPatchEffect(now: string, d: Duty)
    ensures var p := ReOpenPatch(now)(d);
      && p.status == Open && p.assignee == d.assignee && p.updatedAt == now
      && p.(status := d.status, updatedAt := d.updatedAt) == d
      && ReOpenPatch(now)(p) == p
  {
  }

  lemma EditPatchEffect(title: Option<string>, dueAt: Option<string>, now: string, d: Duty)
    ensures var p := EditPatch(title, dueAt, now)(d);
      && (Given(title) ==> p.title == title.value) && (!Given(title) ==> p.title == d.title)
      && (Given(dueAt) ==> p.dueAt == dueAt.value) && (!Given(dueAt) ==> p.dueAt == d.dueAt)
      && p.updatedAt == now && p.status == d.status && p.assignee == d.assignee
      && p.(title := d.title, dueAt := d.dueAt, updatedAt := d.updatedAt) == d
  {
  }

  function Patched(ds: seq<Duty>, id: string, f: Duty -> Duty): seq<Duty>
  {
    Lists.PatchFirst(ds, DutyId, id, f)
  }

  /** A duty's round trip: assign, then markDone, then reOpen leaves the
      duty Open with the assignee of the assign step; nothing else changes. */
  lemma AssignDoneReOpen(ds: seq<Duty>, id: string, assignee: string, t1: string, t2: string, t3: string)
    requires Lists.IndexOf(ds, DutyId, id).Some?
    ensures var i := Lists.IndexOf(ds, DutyId, id).value;
            var r := Patched(Patched(Patched(ds, id, AssignPatch(assignee, t1)), id, DonePatch(t2)), id, ReOpenPatch(t3));
            && |r| == |ds|
            && r[i] == ds[i].(status := Open, assignee := Some(assignee), updatedAt := t3)
            && forall j :: 0 <= j < |ds| && j != i ==> r[j] == ds[j]
  {
    var i := Lists.IndexOf(ds, DutyId, id).value;
    var assign, done, reopen := AssignPatch(assignee, t1), DonePatch(t2), ReOpenPatch(t3);
    PatchedAt(ds, id, assign, i);
    var r1 := ds[i := assign(ds[i])];
    PatchedAt(r1, id, done, i);
    var r2 := r1[i := done(r1[i])];
    PatchedAt(r2, id, reopen, i);
    var d := ds[i];
    assert r1[i] == assign(d) == d.(status := Assigned, assignee := Some(assignee), updatedAt := t1);
    assert r2[i] == done(assign(d)) == d.(status := Done, assignee := Some(assignee), updatedAt := t2);
  }

  /** Patching by an id found at `i` with an id-keeping patch replaces position
      `i` only, and the id is still found there. */
  lemma PatchedAt(s: seq<Duty>, id: string, f: Duty -> Duty, i: nat)
    requires Lists.IndexOf(s, DutyId, id) == Some(i)
    requires forall d :: f(d).id == d.id
    ensures Patched(s, id, f) == s[i := f(s[i])]
    ensures Lists.IndexOf(Patched(s, id, f), DutyId, id) == Some(i)
  {
    Lists.PatchFirstKeepsKeys(s, DutyId, id, f);
  }

  // ------------------------------------------------------------------
  // Archive marks (dutyStore.ts:31-47)
  // ------------------------------------------------------------------

  /** `!!archived[eventId]?.[dutyId]`. */
  predicate Marked(m: map<string, set<string>>, eventId: string, dutyId: string)
  {
    eventId in m && dutyId in m[eventId]
  }

  /** `{ ...archived, [evt]: { ...bucket, [dutyId]: true } }`: exactly one
      mark is added and every other event's bucket is kept. */
  function Mark(m: map<string, set<string>>, eventId: string, dutyId: string): (r: map<string, set<string>>)
    ensures forall e, d :: Marked(r, e, d) <==> (e == eventId && d == dutyId) || Marked(m, e, d)
    ensures r.Keys == m.Keys + {eventId}
    ensures forall e :: e in m && e != eventId ==> r[e] == m[e]
  {
    m[eventId := (if eventId in m then m[eventId] else {}) + {dutyId}]
  }

  /** `Some(ev)` with its duties replaced; no current event stays none. */
  function WithDuties(ev: Option<Event>, ds: seq<Duty>): (r: Option<Event>)
    ensures r.Some? == ev.Some?
    ensures r.Some? ==> r.value.duties == ds && r.value.(duties := []) == ev.value.(duties := [])
  {
    if ev.Some? then Some(ev.value.(duties := ds)) else None
  }

  const DefaultActor: string := "actor-1"

  class DutyStore {
    /** Declared and exported by the store; no action writes it. */
    var events: seq<Event>
    var currentEvent: Option<Event>
    var currentActor: string
    var loading: bool
    var error: Option<string>
    /** Local-only marks, event id to the set of archived duty ids. */
    var archived: map<string, set<string>>
    var archiveTick: nat

    constructor()
      ensures events == [] && currentEvent == None && currentActor == DefaultActor
      ensures !loading && error == None && archived == map[] && archiveTick == 0
    {
      events := [];
      currentEvent := None;
      currentActor := DefaultActor;
      loading := false;
      error := None;
      archived := map[];
      archiveTick := 0;
    }

    /** `currentEvent?.duties || []`: writing the list back through
        `WithDuties` gives the current event again. */
    function CurrentEventDuties(): (r: seq<Duty>)
      reads this
      ensures currentEvent.None? ==> r == []
      ensures WithDuties(currentEvent, r) == currentEvent
    {
      if currentEvent.Some? then currentEvent.value.duties else []
    }

    /** The open view: exactly the current event's Open duties, in order. */
    function OpenDuties(): (r: seq<Duty>)
      reads this
      ensures forall d :: d in r <==> d in CurrentEventDuties() && d.status == Open
    {
      WithStatusMembers(CurrentEventDuties(), Open);
      WithStatus(CurrentEventDuties(), Open)
    }

    /** The assigned view: exactly the current event's Assigned duties, in order. */
    function AssignedDuties(): (r: seq<Duty>)
      reads this
      ensures forall d :: d in r <==> d in CurrentEventDuties() && d.status == Assigned
    {
      WithStatusMembers(CurrentEventDuties(), Assigned);
      WithStatus(CurrentEventDuties(), Assigned)
    }

    /** The done view: exactly the current event's Done duties, in order. */
    function DoneDuties(): (r: seq<Duty>)
      reads this
      ensures forall d :: d in r <==> d in CurrentEventDuties() && d.status == Done
    {
      WithStatusMembers(CurrentEventDuties(), Done);
      WithStatus(CurrentEventDuties(), Done)
    }

    /** `!!archived[eventId]?.[dutyId]`. */
    predicate IsArchived(eventId: string, dutyId: string)
      reads this
    {
      Marked(archived, eventId, dutyId)
    }

    method SetCurrentEvent(event: Event)
      modifies this`currentEvent
      ensures currentEvent == Some(event)
    {
      currentEvent := Some(event);
    }

    method SetActor(id: string)
      modifies this`currentActor
      ensures currentActor == id
    {
      currentActor := id;
    }

    /**
     * loadEventDuties: the mapped documents replace the current event's
     * duties whichever event they were fetched for; with no current event
     * they are dropped.  A date that does not parse throws into the catch.
     */
    method LoadEventDuties(eventId: string, reply: ApiResponse<seq<DutyDoc>>, iso: Normaliser)
      returns (sent: seq<Call>)
      modifies this`loading, this`error, this`currentEvent
      ensures sent == [GetEventDuties(eventId)] && !loading
      ensures reply.Failure? ==> error == Some(reply.message) && currentEvent == old(currentEvent)
      ensures reply.Data? ==>
        var mapped := Lists.MapAll(reply.value, DocMapper(iso));
        if mapped.Some? then error == None && currentEvent == WithDuties(old(currentEvent), mapped.value)
        else error == Some("Failed to load duties") && currentEvent == old(currentEvent)
    {
      loading, error := true, None;
      sent := [GetEventDuties(eventId)];
      if reply.Failure? {
        error, loading := Some(reply.message), false;
        return;
      }
      var mapped := Lists.MapAll(reply.value, DocMapper(iso));
      if mapped.None? {
        error := Some("Failed to load duties");
      } else {
        currentEvent := WithDuties(currentEvent, mapped.value);
      }
      loading := false;
    }

    /**
     * assignDuty: on success the first duty with that id becomes Assigned to
     * `assignee`, stamped `now`; every other duty is kept, and a list without
     * that id is unchanged.
     */
    method AssignDuty(dutyId: string, assignee: string, reply: ApiResponse<()>, now: string)
      returns (sent: seq<Call>)
      modifies this`loading, this`error, this`currentEvent
      ensures sent == [DutyRoster(DutyOp.AssignDuty(dutyId, currentActor, assignee))] && !loading
      ensures reply.Failure? ==> error == Some(reply.message) && currentEvent == old(currentEvent)
      ensures reply.Data? ==> (error == None &&
        currentEvent == WithDuties(old(currentEvent), Patched(old(CurrentEventDuties()), dutyId, AssignPatch(assignee, now))))
    {
      loading, error := true, None;
      sent := [DutyRoster(DutyOp.AssignDuty(dutyId, currentActor, assignee))];
      if reply.Failure? {
        error := Some(reply.message);
      } else {
        currentEvent := WithDuties(currentEvent, Patched(CurrentEventDuties(), dutyId, AssignPatch(assignee, now)));
      }
      loading := false;
    }

    /** unassignDuty: on success the duty found becomes Open with no assignee. */
    method UnassignDuty(dutyId: string, reply: ApiResponse<()>, now: string)
      returns (sent: seq<Call>)
      modifies this`loading, this`error, this`currentEvent
      ensures sent == [DutyRoster(DutyOp.UnassignDuty(dutyId, currentActor))] && !loading
      ensures reply.Failure? ==> error == Some(reply.message) && currentEvent == old(currentEvent)
      ensures reply.Data? ==> (error == None &&
        currentEvent == WithDuties(old(currentEvent), Patched(old(CurrentEventDuties()), dutyId, UnassignPatch(now))))
    {
      loading, error := true, None;
      sent := [DutyRoster(DutyOp.UnassignDuty(dutyId, currentActor))];
      if reply.Failure? {
        error := Some(reply.message);
      } else {
        currentEvent := WithDuties(currentEvent, Patched(CurrentEventDuties(), dutyId, UnassignPatch(now)));
      }
      loading := false;
    }

    /** markDone: on success the duty found becomes Done and keeps its assignee. */
    method MarkDone(dutyId: string, reply: ApiResponse<()>, now: string)
      returns (sent: seq<Call>)
      modifies this`loading, this`error, this`currentEvent
      ensures sent == [DutyRoster(DutyOp.MarkDone(dutyId, currentActor))] && !loading
      ensures reply.Failure? ==> error == Some(reply.message) && currentEvent == old(currentEvent)
      ensures reply.Data? ==> (error == None &&
        currentEvent == WithDuties(old(currentEvent), Patched(old(CurrentEventDuties()), dutyId, DonePatch(now))))
    {
      loading, error := true, None;
      sent := [DutyRoster(DutyOp.MarkDone(dutyId, currentActor))];
      if reply.Failure? {
        error := Some(reply.message);
      } else {
        currentEvent := WithDuties(currentEvent, Patched(CurrentEventDuties(), dutyId, DonePatch(now)));
      }
      loading := false;
    }

    /** reOpen: on success the duty found becomes Open and keeps its assignee. */
    method ReOpen(dutyId: string, reply: ApiResponse<()>, now: string)
      returns (sent: seq<Call>)
      modifies this`loading, this`error, this`currentEvent
      ensures sent == [DutyRoster(DutyOp.ReOpen(dutyId, currentActor))] && !loading
      ensures reply.Failure? ==> error == Some(reply.message) && currentEvent == old(currentEvent)
      ensures reply.Data? ==> (error == None &&
        currentEvent == WithDuties(old(currentEvent), Patched(old(CurrentEventDuties()), dutyId, ReOpenPatch(now))))
    {
      loading, error := true, None;
      sent := [DutyRoster(DutyOp.ReOpen(dutyId, currentActor))];
      if reply.Failure? {
        error := Some(reply.message);
      } else {
        currentEvent := WithDuties(currentEvent, Patched(CurrentEventDuties(), dutyId, ReOpenPatch(now)));
      }
      loading := false;
    }

    /** deleteDuty: on success every duty with that id leaves the list, the rest keep their order. */
    method DeleteDuty(dutyId: string, reply: ApiResponse<()>)
      returns (sent: seq<Call>)
      modifies this`loading, this`error, this`currentEvent
      ensures sent == [DutyRoster(DutyOp.DeleteDuty(dutyId, currentActor))] && !loading
      ensures reply.Failure? ==> error == Some(reply.message) && currentEvent == old(currentEvent)
      ensures reply.Data? ==> (error == None &&
        currentEvent == WithDuties(old(currentEvent), Lists.Without(old(CurrentEventDuties()), DutyId, dutyId)))
    {
      loading, error := true, None;
      sent := [DutyRoster(DutyOp.DeleteDuty(dutyId, currentActor))];
      if reply.Failure? {
        error := Some(reply.message);
      } else {
        currentEvent := WithDuties(currentEvent, Lists.Without(CurrentEventDuties(), DutyId, dutyId));
      }
      loading := false;
    }

    /** updateDuty: on success the duty found takes each non-empty argument and is stamped `now`. */
    method UpdateDuty(dutyId: string, title: Option<string>, dueAt: Option<string>, reply: ApiResponse<()>, now: string)
      returns (sent: seq<Call>)
      modifies this`loading, this`error, this`currentEvent
      ensures sent == [DutyRoster(DutyOp.UpdateDuty(dutyId, currentActor, title, dueAt))] && !loading
      ensures reply.Failure? ==> error == Some(reply.message) && currentEvent == old(currentEvent)
      ensures reply.Data? ==> (error == None &&
        currentEvent == WithDuties(old(currentEvent), Patched(old(CurrentEventDuties()), dutyId, EditPatch(title, dueAt, now))))
    {
      loading, error := true, None;
      sent := [DutyRoster(DutyOp.UpdateDuty(dutyId, currentActor, title, dueAt))];
      if reply.Failure? {
        error := Some(reply.message);
      } else {
        currentEvent := WithDuties(currentEvent, Patched(CurrentEventDuties(), dutyId, EditPatch(title, dueAt, now)));
      }
      loading := false;
    }

    /**
     * addDuty: a no-op without a current event.  When the reply carries a
     * duty id, one Open duty of the current event is appended; a given
     * assignee is then assigned through assignDuty with its own reply.
     */
    method AddDuty(title: string, dueAt: string, assignee: Option<string>,
                   reply: ApiResponse<AddedDuty>, assignReply: ApiResponse<()>, now: string, assignedAt: string)
      returns (sent: seq<Call>)
      modifies this`loading, this`error, this`currentEvent
      ensures old(currentEvent).None? ==>
        sent == [] && loading == old(loading) && error == old(error) && currentEvent == None
      ensures old(currentEvent).Some? ==> !loading
      ensures old(currentEvent).Some? ==>
        var evt := old(currentEvent).value.id;
        var added := old(CurrentEventDuties()) + [Duty(if reply.Data? then reply.value.duty else "", title, dueAt, Open, None, evt, now)];
        && |sent| >= 1
        && sent[..1] == [DutyRoster(DutyOp.AddDuty(evt, currentActor, title, dueAt))]
        && (reply.Failure? ==> sent == sent[..1] && error == Some(reply.message) && currentEvent == old(currentEvent))
        && (reply.Data? && reply.value.duty == "" ==> sent == sent[..1] && error == None && currentEvent == old(currentEvent))
        && (reply.Data? && reply.value.duty != "" && !Given(assignee) ==>
              sent == sent[..1] && error == None && currentEvent == WithDuties(old(currentEvent), added))
        && (reply.Data? && reply.value.duty != "" && Given(assignee) ==>
              && sent == sent[..1] + [DutyRoster(DutyOp.AssignDuty(reply.value.duty, currentActor, assignee.value))]
              && (assignReply.Failure? ==> error == Some(assignReply.message) && currentEvent == WithDuties(old(currentEvent), added))
              && (assignReply.Data? ==>
                    error == None &&
                    currentEvent == WithDuties(old(currentEvent), Patched(added, reply.value.duty, AssignPatch(assignee.value, assignedAt)))))
    {
      if currentEvent.None? {
        return [];
      }
      loading, error := true, None;
      var evt := currentEvent.value.id;
      sent := [DutyRoster(DutyOp.AddDuty(evt, currentActor, title, dueAt))];
      if reply.Failure? {
        error, loading := Some(reply.message), false;
        return;
      }
      if reply.value.duty != "" {
        var duty := Duty(reply.value.duty, title, dueAt, Open, None, evt, now);
        currentEvent := WithDuties(currentEvent, CurrentEventDuties() + [duty]);
        if Given(assignee) {
          var more := AssignDuty(duty.id, assignee.value, assignReply, assignedAt);
          sent := sent + more;
        }
      }
      loading := false;
    }

    /**
     * archiveDuty: a no-op without a current event or when no duty has the
     * id.  Otherwise a duty that is not Done first goes through markDone,
     * and the mark for (current event, duty) is set whether or not that
     * succeeded; `archiveTick` counts the marks set.
     */
    method ArchiveDuty(dutyId: string, doneReply: ApiResponse<()>, now: string)
      returns (sent: seq<Call>)
      modifies this`loading, this`error, this`currentEvent, this`archived, this`archiveTick
      ensures old(currentEvent).None? || Lists.Absent(old(CurrentEventDuties()), DutyId, dutyId) ==>
        sent == [] && loading == old(loading) && error == old(error) && currentEvent == old(currentEvent)
        && archived == old(archived) && archiveTick == old(archiveTick)
      ensures old(currentEvent).Some? && !Lists.Absent(old(CurrentEventDuties()), DutyId, dutyId) ==>
        var ds := old(CurrentEventDuties());
        var found := ds[Lists.IndexOf(ds, DutyId, dutyId).value];
        && archived == Mark(old(archived), old(currentEvent).value.id, dutyId)
        && (forall e, x :: IsArchived(e, x) <==> (e == old(currentEvent).value.id && x == dutyId) || old(IsArchived(e, x)))
        && archiveTick == old(archiveTick) + 1
        && (found.status == Done ==>
              sent == [] && loading == old(loading) && error == old(error) && currentEvent == old(currentEvent))
        && (found.status != Done ==>
              && sent == [DutyRoster(DutyOp.MarkDone(dutyId, currentActor))] && !loading
              && (doneReply.Failure? ==> error == Some(doneReply.message) && currentEvent == old(currentEvent))
              && (doneReply.Data? ==>
                    error == None &&
                    currentEvent == WithDuties(old(currentEvent), Patched(ds, dutyId, DonePatch(now)))))
    {
      if currentEvent.None? {
        return [];
      }
      var evt, ds := currentEvent.value.id, CurrentEventDuties();
      var i := Lists.IndexOf(ds, DutyId, dutyId);
      if i.None? {
        return [];
      }
      if ds[i.value].status != Done {
        sent := MarkDone(dutyId, doneReply, now);
      } else {
        sent := [];
      }
      archived := Mark(archived, evt, dutyId);
      archiveTick := archiveTick + 1;
    }
  }

  /** The payload of `addDuty`; "" stands for a missing `duty` field. */
  datatype AddedDuty = AddedDuty(duty: string)

  /** Patching the only duty of a one-duty list by its own id patches it. */
  lemma OnlyDutyPatched(d: Duty, f: Duty -> Duty)
    ensures Patched([d], d.id, f) == [f(d)]
  {
    assert Lists.IsFirst([d], DutyId, d.id, 0);
  }

  /**
   * A fresh store with event E1 current adds the duty "Setup" without an
   * assignee, and the server names it D1: the list holds just that open duty.
   * The call goes out under the default actor, since nothing re-points it.
   */
  method AddToFreshStore(ev: Event, now: string) returns (afterAdd: seq<Duty>, sent: seq<Call>)
    requires ev.id == "E1" && ev.duties == []
    ensures afterAdd == [Duty("D1", "Setup", "2025-01-01T10:00:00Z", Open, None, "E1", now)]
    ensures sent == [DutyRoster(DutyOp.AddDuty("E1", DefaultActor, "Setup", "2025-01-01T10:00:00Z"))]
  {
    var store := new DutyStore();
    store.SetCurrentEvent(ev);
    sent := store.AddDuty("Setup", "2025-01-01T10:00:00Z", None, Data(AddedDuty("D1")), Data(()), now, now);
    afterAdd := store.CurrentEventDuties();
  }

  /**
   * With the open duty D1 as the only duty of E1, assigning it to U2 and
   * then archiving it marks it done, keeps U2 and sets the mark (E1, D1).
   */
  method AssignThenArchive(ev: Event, t2: string, t3: string)
    returns (afterAssign: seq<Duty>, afterArchive: seq<Duty>, marked: bool, sent: seq<Call>)
    requires ev.id == "E1" && |ev.duties| == 1 && ev.duties[0].id == "D1" && ev.duties[0].status == Open
    ensures afterAssign == [ev.duties[0].(status := Assigned, assignee := Some("U2"), updatedAt := t2)]
    ensures afterArchive == [ev.duties[0].(status := Done, assignee := Some("U2"), updatedAt := t3)]
    ensures marked
    ensures sent == [DutyRoster(DutyOp.AssignDuty("D1", DefaultActor, "U2")),
                     DutyRoster(DutyOp.MarkDone("D1", DefaultActor))]
  {
    var d := ev.duties[0];
    var withU2 := AssignPatch("U2", t2)(d);
    var store := new DutyStore();
    store.SetCurrentEvent(ev);
    assert ev.duties == [d];
    OnlyDutyPatched(d, AssignPatch("U2", t2));
    var s2 := store.AssignDuty("D1", "U2", Data(()), t2);
    afterAssign := store.CurrentEventDuties();
    assert afterAssign == [withU2];
    OnlyDutyPatched(withU2, DonePatch(t3));
    assert Lists.IndexOf(afterAssign, DutyId, "D1") == Some(0);
    var s3 := store.ArchiveDuty("D1", Data(()), t3);
    afterArchive := store.CurrentEventDuties();
    marked := store.IsArchived("E1", "D1");
    sent := s2 + s3;
  }
}
