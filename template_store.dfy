/**
 * The template cache (src/stores/templateStore.ts): the actor's saved event
 * templates.  Every call is made on behalf of the Event store's current
 * actor; creating or editing a template reloads the whole list, deleting
 * one filters it locally.
 */
module Templates {
  import opened Wrappers
  import opened Api
  import Lists
  import Events

  const LoadFailed: string := "Failed to load templates"

  /** A template document as `listTemplates` returns it. */
  datatype TemplateDoc = TemplateDoc(id: string, owner: string, title: string,
                                     members: seq<string>, standardDuties: seq<string>,
                                     createdAt: string, updatedAt: string)

  /** The mapping of one document (templateStore.ts:22-30); None when a date does not parse. */
  function FromDoc(doc: TemplateDoc, iso: Normaliser): (r: Option<Template>)
    ensures r.Some? <==> iso(doc.createdAt).Some? && iso(doc.updatedAt).Some?
    ensures r.Some? ==>
      && r.value.id == doc.id && r.value.owner == doc.owner && r.value.title == doc.title
      && r.value.members == doc.members && r.value.standardDuties == doc.standardDuties
      && r.value.createdAt == iso(doc.createdAt).value && r.value.updatedAt == iso(doc.updatedAt).value
  {
    match (iso(doc.createdAt), iso(doc.updatedAt))
    case (Some(created), Some(updated)) =>
      Some(Template(doc.id, doc.owner, doc.title, doc.members, doc.standardDuties, created, updated))
    case _ => None
  }

  function DocMapper(iso: Normaliser): TemplateDoc -> Option<Template>
  {
    doc => FromDoc(doc, iso)
  }

  class TemplateStore {
    var templates: seq<Template>
    var loading: bool
    var error: Option<string>

    constructor()
      ensures templates == [] && !loading && error == None
    {
      templates, loading, error := [], false, None;
    }

    /** listMyTemplates: asks for the actor's templates and replaces the list. */
    method ListMyTemplates(events: Events.EventStore, reply: ApiResponse<seq<TemplateDoc>>, iso: Normaliser)
      returns (sent: seq<Call>)
      modifies this`templates, this`loading, this`error
      ensures sent == [ListTemplates(events.currentActor)] && AllBy(sent, events.currentActor)
      ensures !loading && (templates, error) == Lists.Reload(old(templates), reply, DocMapper(iso), LoadFailed)
    {
      loading, error := true, None;
      sent := [ListTemplates(events.currentActor)];
      if reply.Failure? {
        error, loading := Some(reply.message), false;
        return;
      }
      var mapped := Lists.MapAll(reply.value, DocMapper(iso));
      if mapped.None? {
        error := Some(LoadFailed);
      } else {
        templates := mapped.value;
      }
      loading := false;
    }

    /** createTemplate: on success the list is reloaded; on failure only the
        error changes (the loading flag and an earlier error are not reset). */
    method CreateTemplate(events: Events.EventStore, title: string, members: seq<string>,
                          standardDuties: seq<string>, reply: ApiResponse<()>,
                          listReply: ApiResponse<seq<TemplateDoc>>, iso: Normaliser)
      returns (sent: seq<Call>)
      modifies this`templates, this`loading, this`error
      ensures AllBy(sent, events.currentActor)
      ensures |sent| >= 1 && sent[0] == Call.CreateTemplate(events.currentActor, title, members, standardDuties)
      ensures reply.Failure? ==>
        sent == sent[..1] && error == Some(reply.message) && templates == old(templates) && loading == old(loading)
      ensures reply.Data? ==>
        && sent == sent[..1] + [ListTemplates(events.currentActor)]
        && !loading && (templates, error) == Lists.Reload(old(templates), listReply, DocMapper(iso), LoadFailed)
    {
      sent := [Call.CreateTemplate(events.currentActor, title, members, standardDuties)];
      if reply.Failure? {
        error := Some(reply.message);
        return;
      }
      var reload := ListMyTemplates(events, listReply, iso);
      sent := sent + reload;
    }

    /** updateTemplate: as createTemplate, with the payload's optional fields. */
    method UpdateTemplate(events: Events.EventStore, templateId: string, patch: TemplatePatch,
                          reply: ApiResponse<()>, listReply: ApiResponse<seq<TemplateDoc>>, iso: Normaliser)
      returns (sent: seq<Call>)
      modifies this`templates, this`loading, this`error
      ensures AllBy(sent, events.currentActor)
      ensures |sent| >= 1 && sent[0] == Call.UpdateTemplate(templateId, events.currentActor, patch)
      ensures reply.Failure? ==>
        sent == sent[..1] && error == Some(reply.message) && templates == old(templates) && loading == old(loading)
      ensures reply.Data? ==>
        && sent == sent[..1] + [ListTemplates(events.currentActor)]
        && !loading && (templates, error) == Lists.Reload(old(templates), listReply, DocMapper(iso), LoadFailed)
    {
      sent := [Call.UpdateTemplate(templateId, events.currentActor, patch)];
      if reply.Failure? {
        error := Some(reply.message);
        return;
      }
      var reload := ListMyTemplates(events, listReply, iso);
      sent := sent + reload;
    }

    /** deleteTemplate: on success every template with that id is dropped locally. */
    method DeleteTemplate(events: Events.EventStore, templateId: string, reply: ApiResponse<()>)
      returns (sent: seq<Call>)
      modifies this`templates, this`error
      ensures sent == [Call.DeleteTemplate(templateId, events.currentActor)] && AllBy(sent, events.currentActor)
      ensures reply.Failure? ==> error == Some(reply.message) && templates == old(templates)
      ensures reply.Data? ==>
        error == old(error) && templates == Lists.Without(old(templates), TemplateId, templateId)
    {
      sent := [Call.DeleteTemplate(templateId, events.currentActor)];
      if reply.Failure? {
        error := Some(reply.message);
      } else {
        templates := Lists.Without(templates, TemplateId, templateId);
      }
    }

    /** applyTemplateToEvent: hands the server's payload back to the caller,
        or nothing after recording the error; the cached list is never touched. */
    method ApplyTemplateToEvent<D>(events: Events.EventStore, templateId: string, eventId: string,
                                   reply: ApiResponse<D>)
      returns (result: Option<D>, sent: seq<Call>)
      modifies this`error
      ensures sent == [ApplyTemplate(templateId, eventId, events.currentActor)] && AllBy(sent, events.currentActor)
      ensures result.Some? <==> reply.Data?
      ensures reply.Data? ==> result == Some(reply.value) && error == old(error)
      ensures reply.Failure? ==> error == Some(reply.message)
    {
      sent := [ApplyTemplate(templateId, eventId, events.currentActor)];
      if reply.Failure? {
        error := Some(reply.message);
        result := None;
      } else {
        result := Some(reply.value);
      }
    }
  }
}
