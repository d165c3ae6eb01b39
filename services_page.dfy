/** The Services page (frontend/src/pages/Services.tsx): the form dialog and its mutations. */
module ServicesPage {
  import opened Wrappers
  import opened ClientApi

  /** `refetchInterval` of the services query. */
  const RefetchIntervalMs := 30000

  /** The four text fields of the dialog. */
  datatype Form = Form(name: string, serviceType: string, url: string, config: string)

  /** The object `handleSubmit` builds. */
  datatype Payload = Payload(name: string, serviceType: string, url: string, config: string, status: ServiceStatus)

  function MakePayload(form: Form): (p: Payload)
    ensures p.status == Up
    ensures p.name == form.name && p.serviceType == form.serviceType && p.url == form.url && p.config == form.config
  {
    Payload(form.name, form.serviceType, form.url, form.config, Up)
  }

  datatype Request = CreateRequest(payload: Payload) | UpdateRequest(id: int, payload: Payload)

  /** Edit-or-create routing of `handleSubmit`. */
  function Route(editing: Option<Service>, form: Form): (r: Request)
    ensures r.payload == MakePayload(form)
    ensures r.UpdateRequest? <==> editing.Some?
    ensures r.UpdateRequest? ==> r.id == editing.value.id
  {
    if editing.Some? then UpdateRequest(editing.value.id, MakePayload(form)) else CreateRequest(MakePayload(form))
  }

  datatype Mutation = CreateMutation | UpdateMutation | DeleteMutation

  datatype CheckLabel = Never | CheckedAt(instant: int)

  /**
   * The "Last Check" chip. `parse` stands for `new Date(...)` followed by
   * `isValid`: `None` is an invalid date. A missing or empty `updated_at`
   * also gives "Never".
   */
  function LastCheckLabel(updatedAt: Option<string>, parse: string -> Option<int>): (l: CheckLabel)
    ensures l.Never? <==> updatedAt.None? || updatedAt.value == "" || parse(updatedAt.value).None?
    ensures l.CheckedAt? ==> l.instant == parse(updatedAt.value).value
  {
    if updatedAt.None? || updatedAt.value == "" then Never
    else match parse(updatedAt.value)
      case None => Never
      case Some(t) => CheckedAt(t)
  }

  /** The page's state: the dialog, the service being edited, the pending flags and the invalidated keys. */
  class Page {
    var open: bool
    var editing: Option<Service>
    var createPending: bool
    var updatePending: bool
    var invalidated: seq<QueryKey>

    constructor ()
      ensures !open && editing.None? && !createPending && !updatePending && invalidated == []
    {
      open := false;
      editing := None;
      createPending := false;
      updatePending := false;
      invalidated := [];
    }

    /** The submit button is disabled while a create or an update is in flight. */
    predicate SubmitDisabled()
      reads this
    {
      createPending || updatePending
    }

    /** "Add Service" opens the dialog and does not touch `editingService`. */
    method AddService()
      modifies this
      ensures open && editing == old(editing)
      ensures createPending == old(createPending) && updatePending == old(updatePending)
      ensures invalidated == old(invalidated)
    {
      open := true;
    }

    /** The edit icon of a card. */
    method EditService(s: Service)
      modifies this
      ensures open && editing == Some(s)
      ensures createPending == old(createPending) && updatePending == old(updatePending)
      ensures invalidated == old(invalidated)
    {
      editing := Some(s);
      open := true;
    }

    /** Dialog close and Cancel. */
    method Close()
      modifies this
      ensures !open && editing.None?
      ensures createPending == old(createPending) && updatePending == old(updatePending)
      ensures invalidated == old(invalidated)
    {
      open := false;
      editing := None;
    }

    /** `handleSubmit`: starts the routed mutation. */
    method Submit(form: Form) returns (r: Request)
      modifies this
      ensures r == Route(old(editing), form)
      ensures r.CreateRequest? ==> createPending && updatePending == old(updatePending)
      ensures r.UpdateRequest? ==> updatePending && createPending == old(createPending)
      ensures open == old(open) && editing == old(editing) && invalidated == old(invalidated)
    {
      r := Route(editing, form);
      if r.CreateRequest? {
        createPending := true;
      } else {
        updatePending := true;
      }
    }

    /**
     * A mutation settles with HTTP `status`. axios rejects a non-2xx
     * answer, so `onSuccess` runs only on 2xx: every kind invalidates
     * the services key; create closes the dialog; update also clears
     * `editingService`; delete leaves the dialog alone.
     */
    method Settle(m: Mutation, status: int)
      modifies this
      ensures m.CreateMutation? ==> !createPending && updatePending == old(updatePending)
      ensures m.UpdateMutation? ==> !updatePending && createPending == old(createPending)
      ensures m.DeleteMutation? ==> createPending == old(createPending) && updatePending == old(updatePending)
      ensures !IsOk(status) ==> open == old(open) && editing == old(editing) && invalidated == old(invalidated)
      ensures IsOk(status) ==> invalidated == old(invalidated) + [ServicesKey]
      ensures IsOk(status) && m.CreateMutation? ==> !open && editing == old(editing)
      ensures IsOk(status) && m.UpdateMutation? ==> !open && editing.None?
      ensures IsOk(status) && m.DeleteMutation? ==> open == old(open) && editing == old(editing)
    {
      if m.CreateMutation? {
        createPending := false;
      } else if m.UpdateMutation? {
        updatePending := false;
      }
      if IsOk(status) {
        invalidated := invalidated + [ServicesKey];
        if m.CreateMutation? {
          open := false;
        } else if m.UpdateMutation? {
          open := false;
          editing := None;
        }
      }
    }
  }
}
