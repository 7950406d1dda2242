# CrewCall client cache layer in Dafny

This project models the client-side cache layer of the CrewCall front end:

- the Duty, Event, Session (auth), Template and Notification Pinia stores;
- the part of the API service that turns a transport outcome into an
  `ApiResponse`;
- the DutyRoster endpoint requests.

Each store is a Dafny `class` whose fields are the store's state. Each
action is a `method` that takes the server's reply as an argument.
It returns the sequence of `apiService` calls it issued, with their
arguments, as `Call` values. Its `ensures` state the whole new state on
every path.

Modules:

- `Wrappers`: `Option`.
- `Lists`: the list operations the stores share. These are first-match
  patching (`find` then assign), removal by id (`filter`) and
  all-or-nothing mapping of server documents (`map`, where a date that
  does not parse throws), and the reload of a cached list from such a
  reply, which the Template and Notification stores share.
- `Api`: the records, the `ApiResponse` datatype, the classification of a
  transport outcome done by `request`, and the DutyRoster requests.
- `Duties`, `Events`, `Auth`, `Templates`, `Notifications`: one class per store.

Conventions:

- `ApiResponse<T>` is `Data(value)` or `Failure(message)`, and the
  message is never empty. So the stores' `if (res.error)` is exactly
  `Failure?`, and every reply carries exactly one of data and error.
- Optional string fields that the code only truth-tests (`data?.duty`,
  `data?.token`, a body's `error`) are strings where `""` stands for
  missing.
- The optional `title`/`dueAt` arguments of `updateDuty` are `Option`s.
  `JSON.stringify` drops an undefined member but keeps an empty string.
- `new Date(x).toISOString()` is a parameter `iso: string -> Option<string>`.
  `None` stands for the `RangeError` it throws, which lands in the
  action's `catch`.
- `new Date()` is a parameter `now`.
- `localStorage` is a `map<string, string>` owned by the session store.

Actor propagation. `login` and `loadFromStorage` call
`eventStore.setActor`, but the Event store exports no such function
(src/stores/eventStore.ts:110-126). The model makes this call an explicit
step that throws:

- In `login`, the throw lands in the catch at
  src/stores/authStore.ts:57-58. By then the token, user id, email and
  storage have been written. The session is authenticated, `error` ends
  as "Login failed", and `dutyStore.setActor` and `loadMyEvents` never run.
- In `loadFromStorage`, the empty catch swallows the throw.

So neither `login` nor `loadFromStorage` changes another store: the Event
and Duty stores' `currentActor` stays where it was, which for fresh stores
is the default "actor-1". Both stores still expose `currentActor` as
writable state, and the Duty store exports `setActor`
(`Duties.DutyStore.SetActor`), so other code can re-point them; the
session store never does. `Duties.AddToFreshStore` and
`Duties.AssignThenArchive` show a duty's life on fresh stores, where every
call carries "actor-1".

Where the intended behaviour of the system reaches further than the code
does, the model follows the code:

- `loadMyEvents` and `createEvent` do not de-duplicate events.
- `archiveDuty` sets the archive mark even when the forced `markDone` fails.
- `deleteTemplate` filters the list locally rather than reloading it.
- `request` passes a 2xx body through as data even when it holds an
  `error` field. Each store then checks that field itself, where it
  does (`login`, `register`, the event fetches of `loadMyEvents`).
- Login does not propagate the actor (above).
- The `Event` interface of src/services/api.ts:14-19 (with `date`) is
  older than the stores. The records follow the shapes the stores build.

## Model

| member | source | states |
|---|---|---|
| Lists.IndexOf | src/stores/dutyStore.ts:165 | `find` by id: the index returned holds the first element with that key; none exactly when no element has it |
| Lists.PatchFirst | src/stores/dutyStore.ts:165-171 | patching what `find` returns: the first element with the key is replaced by its patched copy, every other position is unchanged, the length is kept, and a list without the key is returned as is |
| Lists.Without | src/stores/dutyStore.ts:270 | `filter(x => x.id !== id)`: the result holds only elements of the input, keeps every element with another key, holds none with that key, and is no longer |
| Lists.MapAll | src/stores/dutyStore.ts:68-77 | `docs.map(f)` with a throwing `f`: succeeds exactly when every document maps, and then holds one mapped element per document, in order |
| Lists.Reload | src/stores/templateStore.ts:19-33 | after a reload (templates here, notifications likewise at notifyStore.ts:21-34) the list is either wholly replaced by one mapped element per document, in order, with no error, or kept, with the reply's error or the store's own "Failed to load ..." message |
| Lists.PatchFirstKeepsKeys | src/stores/dutyStore.ts:165-171 | a patch that keeps the id keeps every id, so a later `find` for any id finds the same position |
| Lists.PatchFirstIdempotent | src/stores/notifyStore.ts:43-44 | patching twice with an idempotent, id-keeping patch equals patching once |
| Lists.WithoutAppend | src/stores/eventStore.ts:105 | removal by id keeps order: filtering a concatenation filters each part |
| Lists.WithoutAbsent | src/stores/eventStore.ts:105 | a list with no element of that id is kept whole |
| Lists.WithoutIdempotent | src/stores/dutyStore.ts:270 | removing the same id twice equals removing it once |
| Api.Decimal | src/services/api.ts:53 | the decimal rendering of a status code is a non-empty run of digits |
| Api.DecimalRoundTrip | src/services/api.ts:53 | the rendered status code reads back as the same number |
| Api.Request | src/services/api.ts:50-61 | data exactly for an ok status with a parsable body, which is passed through unchanged; a non-ok status whose body text reads gives "HTTP status: text"; a rejected fetch, a non-ok body whose `response.text()` throws, or an unparsable ok body gives "Network error: message" or "Network error: Unknown error"; never both or neither |
| Api.HttpErrorLayout | src/services/api.ts:53 | an HTTP error message is "HTTP ", the status in decimal, ": ", then the body text |
| Api.NetworkErrorLayout | src/services/api.ts:61 | a network error message is "Network error: " then the thrown Error's message, or "Unknown error" for anything else thrown |
| Api.ErrorMessagesDecode | src/services/api.ts:50-61 | an HTTP error message reads back as its status and body text, and a network error message never reads as an HTTP error: the two kinds are distinguishable |
| Api.ServerExploded | src/services/api.ts:50-54 | status 500 with body "server exploded" yields the error "HTTP 500: server exploded" whatever the body parses to |
| Api.Endpoint | src/services/api.ts:66-106 | each DutyRoster method posts to base URL + "/DutyRoster/" + its name, with a body led by the duty (or event) id and then the actor |
| Api.EndpointDecodes | src/services/api.ts:66-106 | the path and body of a DutyRoster request determine the operation and all its arguments; undefined `title`/`dueAt` of `updateDuty` are left out of the body |
| Duties.FromDoc | src/stores/dutyStore.ts:69-77 | a duty document maps exactly when both dates normalise; id, title, status, assignee and event are copied, and dueAt and updatedAt are the normalised dates |
| Duties.WithStatus | src/stores/dutyStore.ts:19-29 | a status view is no longer than the list and holds only duties of that status |
| Duties.WithStatusMembers | src/stores/dutyStore.ts:19-29 | a duty is in a status view exactly when it is in the list and has that status |
| Duties.DutyStore.CurrentEventDuties | src/stores/dutyStore.ts:15-17 | the current event's duties, or none without a current event; writing them back through `WithDuties` gives the current event again |
| Duties.DutyStore.OpenDuties | src/stores/dutyStore.ts:19-21 | a duty is in the open view exactly when it is one of the current event's duties and is Open |
| Duties.DutyStore.AssignedDuties | src/stores/dutyStore.ts:23-25 | a duty is in the assigned view exactly when it is one of the current event's duties and is Assigned |
| Duties.DutyStore.DoneDuties | src/stores/dutyStore.ts:27-29 | a duty is in the done view exactly when it is one of the current event's duties and is Done |
| Duties.WithStatusAppend | src/stores/dutyStore.ts:19-29 | the status views preserve order: a view of a concatenation is the concatenation of the views |
| Duties.StatusViewsCount | src/stores/dutyStore.ts:19-29 | for each duty value, its copies in the open, assigned and done views add up to its copies in the list |
| Duties.StatusViewsPartition | src/stores/dutyStore.ts:19-29 | the open, assigned and done views together are the list as a multiset: each duty occurs once per occurrence, in the view of its own status |
| Duties.StatusViewsCover | src/stores/dutyStore.ts:19-29 | the three views' lengths add up to the list's length, and a duty is in a view exactly when it has that view's status |
| Duties.AssignPatchEffect | src/stores/dutyStore.ts:167-169 | the patched duty is Assigned to the assignee and stamped now; every other field is kept; patching again changes nothing |
| Duties.UnassignPatchEffect | src/stores/dutyStore.ts:195-197 | the patched duty is Open with no assignee and stamped now; every other field is kept; patching again changes nothing |
| Duties.DonePatchEffect | src/stores/dutyStore.ts:221-222 | the patched duty is Done and stamped now, with the same assignee; every other field is kept; patching again changes nothing |
| Duties.ReOpenPatchEffect | src/stores/dutyStore.ts:246-247 | the patched duty is Open and stamped now, with the same assignee; every other field is kept; patching again changes nothing |
| Duties.EditPatchEffect | src/stores/dutyStore.ts:294-296 | title and dueAt are written only when given non-empty and kept otherwise; the duty is stamped now; status, assignee and the other fields are kept |
| Duties.PatchedAt | src/stores/dutyStore.ts:165-171 | patching by an id first found at i with an id-keeping patch changes position i only, and the id is still first found at i |
| Duties.AssignDoneReOpen | src/stores/dutyStore.ts:165-248 | assign, then markDone, then reOpen on a listed duty leaves it Open with the assignee from the assign step and the last timestamp; every other duty is unchanged |
| Duties.Mark | src/stores/dutyStore.ts:45-46 | the new archive map has exactly the old marks plus (event, duty), and keeps every other event's bucket |
| Duties.WithDuties | src/stores/dutyStore.ts:78-83 | replacing the current event's duties keeps the rest of the event, and no current event stays none |
| Duties.DutyStore.constructor | src/stores/dutyStore.ts:8-12 | an empty store with no current event, the default actor "actor-1", no marks and a zero tick |
| Duties.DutyStore.SetCurrentEvent | src/stores/dutyStore.ts:51-53 | the given event becomes current |
| Duties.DutyStore.SetActor | src/stores/dutyStore.ts:55-57 | the given id becomes the actor of later calls |
| Duties.DutyStore.LoadEventDuties | src/stores/dutyStore.ts:59-89 | an error reply sets `error` and keeps the duties; otherwise the mapped documents replace the current event's duties whichever event was asked for, are dropped when there is no current event, and an unparsable date gives "Failed to load duties" and keeps the duties; `loading` ends false |
| Duties.DutyStore.AddDuty | src/stores/dutyStore.ts:99-147 | no current event: nothing is sent or changed; otherwise one addDuty call; an error reply keeps the list; a reply naming the duty appends exactly one Open duty of the current event, then, with a non-empty assignee, runs assignDuty on it with its own reply; `loading` ends false |
| Duties.DutyStore.AssignDuty | src/stores/dutyStore.ts:149-178 | one assignDuty call under the store's actor; an error reply sets `error` and keeps the list; success makes the first duty with that id Assigned to the assignee, stamped now, and keeps everything else |
| Duties.DutyStore.UnassignDuty | src/stores/dutyStore.ts:180-204 | as assignDuty, with the found duty becoming Open with no assignee |
| Duties.DutyStore.MarkDone | src/stores/dutyStore.ts:206-229 | as assignDuty, with the found duty becoming Done and keeping its assignee |
| Duties.DutyStore.ReOpen | src/stores/dutyStore.ts:231-254 | as assignDuty, with the found duty becoming Open and keeping its assignee |
| Duties.DutyStore.DeleteDuty | src/stores/dutyStore.ts:256-277 | an error reply keeps the list; success removes every duty with that id and keeps the rest in order |
| Duties.DutyStore.UpdateDuty | src/stores/dutyStore.ts:279-303 | success writes title and dueAt of the found duty only when given non-empty, and always stamps it now; an error reply keeps the list |
| Duties.DutyStore.ArchiveDuty | src/stores/dutyStore.ts:34-48 | no current event or duty not listed: nothing changes; otherwise markDone runs only if the duty is not Done, and then, whether markDone succeeded or not, `isArchived` holds exactly for (current event, duty) and every pair it held for before, and the tick grows by one |
| Duties.AddToFreshStore | src/stores/dutyStore.ts:99-147 | on a fresh store with E1 current, adding "Setup" that the server names D1 lists exactly one Open, unassigned duty of E1 and sends one addDuty call as the default actor "actor-1" |
| Duties.AssignThenArchive | src/stores/dutyStore.ts:35-229 | with D1 the only, Open duty of E1, assigning it to U2 makes it Assigned to U2; archiving it then makes it Done still assigned to U2 and sets the mark (E1, D1); the two calls go out as "actor-1" |
| Events.FromDoc | src/stores/eventStore.ts:29-37 | an event document maps exactly when both dates normalise; id and title are copied, startsAt and endsAt are the normalised dates, duties are empty and `active` is the truthiness of the field |
| Events.CollectSucceedsIff | src/stores/eventStore.ts:24-40 | the load succeeds exactly when every kept document's dates normalise, and then yields at most one event per row |
| Events.CollectInRowOrder | src/stores/eventStore.ts:24-40 | when the load succeeds its events are exactly the mapped documents of the kept fetches (data without an error field), in row order |
| Events.KeptEventsAppend | src/stores/eventStore.ts:24-40 | the kept, mapped events of a concatenation of fetches are those of each part, in order |
| Events.RecordRoles | src/stores/eventStore.ts:26 | recording rows' roles never drops an event that already had a role |
| Events.Reached | src/stores/eventStore.ts:25-39 | the loop reaches at most every row, and every row when no document throws |
| Events.EventFetches | src/stores/eventStore.ts:27 | one call per row, and call i is getEvent of row i's event |
| Events.RolesRecorded | src/stores/eventStore.ts:25-27 | the recorded roles cover exactly the old ones' events plus every row's event |
| Events.LastRowDecides | src/stores/eventStore.ts:25-27 | the last row naming an event decides its role, whether or not its fetch succeeds |
| Events.UnnamedKeepRole | src/stores/eventStore.ts:25-27 | an event no row names keeps the role it had |
| Events.CollectPrefixThrows | src/stores/eventStore.ts:28-42 | once a document throws, the whole load throws |
| Events.ReachedAt | src/stores/eventStore.ts:25-42 | the loop stops right after the first row whose document throws |
| Events.CollectAppend | src/stores/eventStore.ts:24-40 | the events collected from a concatenation of fetches are those of each part, in order |
| Events.CollectKeepsEveryRow | src/stores/eventStore.ts:24-40 | when every fetch is kept and maps, there is one event per row in row order: a repeated row gives a repeated entry |
| Events.ActivePatchEffect | src/stores/eventStore.ts:99 | setActive's patch writes `active` and nothing else; writing it twice is writing it once |
| Events.WalkRows | src/stores/eventStore.ts:24-42 | the row loop: roles recorded and one getEvent call per row up to the first document whose date throws, and the kept documents mapped in row order, or nothing when one throws |
| Events.EventStore.constructor | src/stores/eventStore.ts:6-11 | an empty store with the default actor "actor-1" |
| Events.EventStore.LoadMyEvents | src/stores/eventStore.ts:16-46 | an error reply sets `error` and keeps events and roles; otherwise roles are recorded for every row reached, one getEvent call per row reached, and the kept documents replace `events` in row order, or, when a date throws, "Failed to load events" with `events` kept; `loading` ends false |
| Events.EventStore.CreateEvent | src/stores/eventStore.ts:48-75 | an error reply keeps events and roles; a reply naming the event and a fetched document put exactly one event in front of the list, with the old entries kept, and make the actor Organizer of it; a date that throws gives "Failed to create event" |
| Events.EventStore.LoadMembers | src/stores/eventStore.ts:77-81 | success replaces only that event's member list; an error reply keeps all |
| Events.EventStore.InviteMember | src/stores/eventStore.ts:83-87 | an error reply keeps the members; success reloads that event's member list |
| Events.EventStore.RemoveMember | src/stores/eventStore.ts:89-93 | an error reply keeps the members; success reloads that event's member list |
| Events.EventStore.SetActive | src/stores/eventStore.ts:95-100 | success sets `active` on the first event with that id only; an error reply keeps the list |
| Events.EventStore.DeleteEvent | src/stores/eventStore.ts:102-108 | success removes every event with that id and deletes only that id's members and role |
| Auth.StoredRoundTrip | src/stores/authStore.ts:19-23 | a key written with a non-empty value reads back as that value, a removed key reads as absent (as `if (t)` sees it), and writing or removing one key leaves every other key reading as before |
| Auth.AuthStore.IsAuthed | src/stores/authStore.ts:15 | `isAuthed` holds only with a token (exactly with one under `Valid`, by `Auth.AuthedExactlyWithToken`) |
| Auth.AuthStore.constructor | src/stores/authStore.ts:98-99 | a new session restores the token and user id from storage and is consistent with it |
| Auth.AuthStore.LoadFromStorage | src/stores/authStore.ts:17-30 | token and user id are restored independently when their keys hold values, otherwise kept; propagation is attempted exactly when both hold values |
| Auth.AuthStore.Login | src/stores/authStore.ts:32-62 | a transport error, a body error or a body without both token and user id ("Log In Failed") leave token, user id, email and storage as they were; with both, the session is authenticated, the email recorded and both keys written, and the propagation step is attempted (reported as `propagationAttempted`, true on this path only) and ends it with "Login failed"; `loading` ends false and the session stays consistent with storage |
| Auth.AuthStore.Register | src/stores/authStore.ts:64-87 | returns true exactly when there is no error and `created` is truthy, then `success` is the server's message or "Account created, please log in"; otherwise the reply's error or "Registration failed"; token and user id are never touched; `loading` ends false |
| Auth.AuthStore.Logout | src/stores/authStore.ts:89-96 | token and user id are cleared and both keys removed from storage, nothing else |
| Auth.AuthedExactlyWithToken | src/stores/authStore.ts:15 | in a session consistent with storage, `isAuthed` holds exactly when there is a token |
| Templates.FromDoc | src/stores/templateStore.ts:22-30 | a template document maps exactly when both dates normalise; id, owner, title, members and standard duties are copied, and createdAt and updatedAt are the normalised dates |
| Templates.TemplateStore.constructor | src/stores/templateStore.ts:7-9 | an empty store |
| Templates.TemplateStore.ListMyTemplates | src/stores/templateStore.ts:14-36 | one listTemplates call for the Event store's actor; the list and error become the reload outcome; `loading` ends false |
| Templates.TemplateStore.CreateTemplate | src/stores/templateStore.ts:38-43 | an error reply sets `error` and keeps the list and `loading`; success reloads the whole list; every call carries the Event store's actor |
| Templates.TemplateStore.UpdateTemplate | src/stores/templateStore.ts:45-50 | as createTemplate, with the optional payload passed on |
| Templates.TemplateStore.DeleteTemplate | src/stores/templateStore.ts:52-57 | success removes every template with that id locally, without a reload, and keeps the others in order |
| Templates.TemplateStore.ApplyTemplateToEvent | src/stores/templateStore.ts:59-64 | returns the reply's data on success and nothing on error, and never changes the list |
| Notifications.FromDoc | src/stores/notifyStore.ts:24-31 | a notification document maps exactly when its date normalises; the fields are copied and `unread` is the truthiness of the field |
| Notifications.UnreadCount | src/stores/notifyStore.ts:11 | the unread count is at most the list's length, and zero exactly when no item is unread |
| Notifications.UnreadCountUpdate | src/stores/notifyStore.ts:11 | replacing one item changes the unread count by the difference of the two flags |
| Notifications.ReadPatchEffect | src/stores/notifyStore.ts:44 | markRead's patch clears `unread` and nothing else; clearing it twice is clearing it once |
| Notifications.MarkReadCount | src/stores/notifyStore.ts:43-44 | marking read lowers the unread count by one exactly when the first item with that id was unread, and leaves it otherwise |
| Notifications.MarkReadIdempotent | src/stores/notifyStore.ts:43-44 | marking the same id read twice leaves the same list as once |
| Notifications.DeleteLowersCount | src/stores/notifyStore.ts:51 | removing items never raises the unread count |
| Notifications.NotifyStore.constructor | src/stores/notifyStore.ts:7-9 | an empty store |
| Notifications.NotifyStore.Unread | src/stores/notifyStore.ts:11 | the store's unread count is at most the number of notifications |
| Notifications.NotifyStore.Refresh | src/stores/notifyStore.ts:16-37 | one listUserNotifications call for the Event store's actor with the only-unread flag; the list and error become the refresh outcome; `loading` ends false |
| Notifications.NotifyStore.MarkRead | src/stores/notifyStore.ts:39-45 | an error reply keeps the list; success clears `unread` on the first item with that id only, and the unread count does not grow |
| Notifications.NotifyStore.DeleteNotification | src/stores/notifyStore.ts:47-52 | an error reply keeps the list; success removes every item with that id, keeps the others in order, and the unread count does not grow |

## Left out

- `fetch`, request headers, CORS mode and `console` logging
  (src/services/api.ts:32-48): I/O. The transport outcome is an input
  datatype: a rejection, or a status with its body text (read, or the
  value `response.text()` threw) and a parsed or unparsable body.
- The `apiService` methods for events, members, templates, notifications
  and accounts are not part of this model. Their calls are recorded as
  `Call` values with their arguments, and their replies are inputs.
- JSON parsing and the escaping done by `JSON.stringify`: documents are
  given already decoded. A DutyRoster body is a sequence of named string
  fields.
- Untyped documents: every field is trusted to have the declared type.
  Duty `status` is trusted to be one of the three statuses, and template
  member lists are passed through as given. A `null` body where a list is
  expected is given as the empty list (`res.data || []`).
- Date parsing, formatting and the clock: see `iso` and `now` above.
- `localStorage` exceptions, swallowed by the empty catches in the
  session store: storage writes always succeed in the model.
- Vue/Pinia reactivity, computed caching and store singletons:
  `archiveTick` is kept as a plain counter.
- Interleaving of concurrent actions: each action runs atomically with its
  replies as arguments. Races between overlapping `loadMyEvents` or
  `createEvent` calls are out of scope. The code does not de-duplicate
  entries in any case.
- Aliasing: the current event and its duties are values. In the code, the
  duty object patched through `find` is shared with anyone else holding
  the same object.
- The Duty store's `events` list is declared but written by no action. It
  is kept as a field and never changes.
- `setError`/`setLoading` of each store are plain assignments, inlined in
  the actions.
- `register`'s catch at src/stores/authStore.ts:81-82 has no path in the
  model, because `request` never throws.
- The catches of the duty actions ("Failed to add duty", "Failed to assign
  duty", "Failed to unassign duty", "Failed to mark duty as done", "Failed
  to reopen duty", "Failed to delete duty", "Failed to update duty" at
  src/stores/dutyStore.ts:141-143, 172-174, 199-200, 224-225, 249-250,
  272-273 and 298-299) have no path in the model either: `request` never
  throws, the clock is a parameter, and interleaving is out of scope.
- Duties.Marked, Duties.DutyStore.IsArchived and Events.RecordRoles
  assume that no event id, duty id or user id is an `Object.prototype`
  property name such as `toString`, `constructor` or `__proto__`. The
  archive, role and member records (src/stores/dutyStore.ts:32-46,
  src/stores/eventStore.ts:26, 67, 107) are plain JS objects: in the code,
  a lookup of such a name sees the inherited property, and
  `roles["__proto__"] = r` is ignored. Dafny maps have no inherited keys,
  so "isArchived holds exactly for the marked pairs" and "every row's role
  is recorded" hold in the model for every id, but in the code only for ids
  that are not inherited names.
- Fractional JSON numbers are modelled as `real` (only their truthiness
  is used).
