/**
 * The delivery partner's shipment update form (frontend/app/components/update-shipment-form.tsx):
 * the statuses it offers, the checks a submission goes through before an update request is
 * sent, the payload it sends, the toast it shows on failure, and what the form displays
 * for the shipment being updated.
 */
module UpdateShipmentForm {
  import opened Wrappers
  import opened ApiTypes
  import opened JsValues
  import Timeline

  /** The statuses the form's select offers. */
  const StatusValues: seq<ShipmentStatus> := [InTransit, OutForDelivery, Delivered]

  /** The number of characters of the verification code input. */
  const VerificationCodeLength: nat := 6

  const ProvideUpdate := "Please provide an update"
  const EnterVerificationCode := "Please enter the verification code"
  const UpdatedSuccessfully := "Shipment updated successfully"
  const InvalidVerificationCode := "Invalid verification code"
  const FailedToUpdate := "Failed to update shipment"

  /** The offered statuses are exactly `in_transit`, `out_for_delivery` and `delivered`. */
  lemma SelectableStatuses(s: ShipmentStatus)
    ensures s in StatusValues <==> StatusValue(s) in {"in_transit", "out_for_delivery", "delivered"}
    ensures |StatusValues| == 3
  {
  }

  /** The submitted fields, as `formData.get(name)?.toString()` reads them; `id` is required. */
  datatype FormFields = FormFields(
    id: string,
    verificationCode: Option<string>,
    location: Option<string>,
    description: Option<string>)

  /** A field is filled when it is present and not the empty string (JavaScript truthiness). */
  predicate Filled(v: Option<string>)
  {
    v.Some? && v.value != ""
  }

  /** The `ShipmentUpdate` body sent to the server. */
  datatype ShipmentUpdate = ShipmentUpdate(
    status: Option<ShipmentStatus>,
    location: Option<int>,
    description: Option<string>,
    verificationCode: Option<string>)

  /** What a submission leads to: a warning toast and no request, or one update request. */
  datatype Submission = Warn(message: string) | Mutate(id: string, update: ShipmentUpdate)

  /**
   * `updateShipment`: without a status, a location or a description it warns that an update
   * is needed; with status `delivered` and no verification code it asks for the code;
   * otherwise it sends the status, description and code as they are, and the location parsed
   * as an integer (`null` when empty). `parseInt` is a parameter.
   */
  function Submit(status: Option<ShipmentStatus>, form: FormFields, parseInt: string -> int): (s: Submission)
    ensures s == Warn(ProvideUpdate) <==> status.None? && !Filled(form.location) && !Filled(form.description)
    ensures s == Warn(EnterVerificationCode) <==> status == Some(Delivered) && !Filled(form.verificationCode)
    ensures s.Warn? ==> s.message == ProvideUpdate || s.message == EnterVerificationCode
    ensures s.Mutate? ==> s.id == form.id && s.update.status == status
    ensures s.Mutate? ==> s.update.description == form.description && s.update.verificationCode == form.verificationCode
    ensures s.Mutate? ==>
      s.update.location == if Filled(form.location) then Some(parseInt(form.location.value)) else None
  {
    if status.None? && !Filled(form.location) && !Filled(form.description) then
      Warn(ProvideUpdate)
    else if status == Some(Delivered) && !Filled(form.verificationCode) then
      Warn(EnterVerificationCode)
    else
      Mutate(form.id, ShipmentUpdate(
        status,
        if Filled(form.location) then Some(parseInt(form.location.value)) else None,
        form.description,
        form.verificationCode))
  }

  /** A request to mark a shipment delivered always carries a non-empty verification code. */
  lemma DeliveredUpdateCarriesCode(status: Option<ShipmentStatus>, form: FormFields, parseInt: string -> int)
    requires Submit(status, form, parseInt).Mutate?
    ensures Submit(status, form, parseInt).update.status == Some(Delivered) ==>
      Filled(Submit(status, form, parseInt).update.verificationCode)
    ensures Submit(status, form, parseInt).update != ShipmentUpdate(None, None, None, None)
  {
  }

  /** The failure toast: it depends only on whether the selected status is `delivered`. */
  function ErrorMessage(status: Option<ShipmentStatus>): (m: string)
    ensures m == InvalidVerificationCode <==> status == Some(Delivered)
    ensures m == FailedToUpdate <==> status != Some(Delivered)
  {
    if status == Some(Delivered) then InvalidVerificationCode else FailedToUpdate
  }

  /** `latestEvent`: the last timeline event, absent without a shipment or with an empty timeline. */
  function LatestEvent(shipment: Option<Shipment>): (e: Option<ShipmentEvent>)
    ensures e.Some? <==> shipment.Some? && |shipment.value.timeline| > 0
    ensures e.Some? ==> e.value == shipment.value.timeline[|shipment.value.timeline| - 1]
    ensures e.Some? ==> e.value.status == Timeline.GetLatestStatus(shipment.value)
  {
    if shipment.Some? && |shipment.value.timeline| > 0 then
      Some(shipment.value.timeline[|shipment.value.timeline| - 1])
    else None
  }

  /** What the form displays. */
  datatype FormView = FormView(
    statusOptions: seq<ShipmentStatus>,
    statusPlaceholder: string,
    codeInputLength: Option<nat>,
    locationPlaceholder: string,
    descriptionPlaceholder: string)

  /**
   * The rendered form: the three statuses to choose from, the shipment's latest status as the
   * status placeholder, the six-character code input only while `delivered` is selected, and
   * the latest event's location and description as placeholders when they are truthy.
   */
  function Render(shipment: Option<Shipment>, status: Option<ShipmentStatus>): (v: FormView)
    requires shipment.Some? ==> |shipment.value.timeline| > 0
    ensures v.statusOptions == StatusValues
    ensures v.codeInputLength.Some? <==> status == Some(Delivered)
    ensures v.codeInputLength.Some? ==> v.codeInputLength.value == VerificationCodeLength
    ensures shipment.None? ==> v.statusPlaceholder == "Shipment Status"
    ensures shipment.Some? ==> v.statusPlaceholder == StatusValue(Timeline.GetLatestStatus(shipment.value))
    ensures shipment.None? ==> v.locationPlaceholder == "Location" && v.descriptionPlaceholder == "scanned at ..."
    ensures shipment.Some? && LatestEvent(shipment).value.location != 0 ==>
      v.locationPlaceholder == IntToString(LatestEvent(shipment).value.location)
    ensures shipment.Some? && LatestEvent(shipment).value.location == 0 ==> v.locationPlaceholder == "Location"
    ensures shipment.Some? && Filled(LatestEvent(shipment).value.description) ==>
      v.descriptionPlaceholder == LatestEvent(shipment).value.description.value
    ensures shipment.Some? && !Filled(LatestEvent(shipment).value.description) ==>
      v.descriptionPlaceholder == "scanned at ..."
  {
    var latest := LatestEvent(shipment);
    FormView(
      StatusValues,
      if shipment.Some? then StatusValue(Timeline.GetLatestStatus(shipment.value)) else "Shipment Status",
      if status == Some(Delivered) then Some(VerificationCodeLength) else None,
      if latest.Some? && latest.value.location != 0 then IntToString(latest.value.location) else "Location",
      if latest.Some? && Filled(latest.value.description) then latest.value.description.value else "scanned at ...")
  }

  /** The form only asks for a verification code when it shows the code input. */
  lemma CodeRequestedOnlyWhenShown(shipment: Option<Shipment>, status: Option<ShipmentStatus>,
                                   form: FormFields, parseInt: string -> int)
    requires shipment.Some? ==> |shipment.value.timeline| > 0
    ensures Submit(status, form, parseInt) == Warn(EnterVerificationCode) ==> Render(shipment, status).codeInputLength.Some?
  {
  }

  /** No status, or one of the statuses the select offers. */
  predicate Offered(status: Option<ShipmentStatus>)
  {
    status.None? || status.value in StatusValues
  }

  datatype ToastKind = SuccessToast | ErrorToast | WarningToast

  /** A toast shown to the user. */
  datatype Toast = Toast(kind: ToastKind, message: string)

  /** One `shipments.mutate` call. */
  datatype Mutation = Mutation(id: string, update: ShipmentUpdate)

  /**
   * The mounted form component: its selected status, and the toasts, update requests and
   * query invalidations it has produced so far.
   */
  class UpdateShipmentFormState {
    const shipment: Option<Shipment>
    var status: Option<ShipmentStatus>
    var toasts: seq<Toast>
    var mutations: seq<Mutation>
    var invalidated: seq<string>

    /** The selected status is one the select offers. */
    ghost predicate Valid()
      reads this
    {
      Offered(status)
    }

    /** Mounting: no status selected, nothing shown or sent yet. */
    constructor (shipment: Option<Shipment>)
      ensures this.shipment == shipment
      ensures status == None && toasts == [] && mutations == [] && invalidated == []
      ensures Valid()
    {
      this.shipment := shipment;
      status := None;
      toasts := [];
      mutations := [];
      invalidated := [];
    }

    /** `onValueChange`: the select reports one of its own options. */
    method SetStatus(value: ShipmentStatus)
      requires value in StatusValues
      modifies this
      ensures status == Some(value)
      ensures toasts == old(toasts) && mutations == old(mutations) && invalidated == old(invalidated)
      ensures Valid()
    {
      status := Some(value);
    }

    /**
     * `updateShipment`: a warning toast, or exactly one update request, as `Submit` decides;
     * a request only ever carries a status the select offers.
     */
    method UpdateShipment(form: FormFields, parseInt: string -> int)
      requires Valid()
      modifies this
      ensures status == old(status) && invalidated == old(invalidated)
      ensures Submit(status, form, parseInt).Warn? ==>
        toasts == old(toasts) + [Toast(WarningToast, Submit(status, form, parseInt).message)]
        && mutations == old(mutations)
      ensures Submit(status, form, parseInt).Mutate? ==>
        toasts == old(toasts)
        && mutations == old(mutations) + [Mutation(form.id, Submit(status, form, parseInt).update)]
      ensures Valid()
      ensures |mutations| > |old(mutations)| ==> Offered(mutations[|mutations| - 1].update.status)
    {
      var location := form.location;
      var description := form.description;
      var verificationCode := form.verificationCode;
      if status.None? && !Filled(location) && !Filled(description) {
        toasts := toasts + [Toast(WarningToast, ProvideUpdate)];
        return;
      }
      if status == Some(Delivered) && !Filled(verificationCode) {
        toasts := toasts + [Toast(WarningToast, EnterVerificationCode)];
        return;
      }
      var parsed := if Filled(location) then Some(parseInt(location.value)) else None;
      mutations := mutations + [Mutation(form.id, ShipmentUpdate(status, parsed, description, verificationCode))];
    }

    /** `onSuccess`: a success toast, and the shipment's query is invalidated so it is fetched again. */
    method OnSuccess()
      requires shipment.Some?
      modifies this
      ensures toasts == old(toasts) + [Toast(SuccessToast, UpdatedSuccessfully)]
      ensures invalidated == old(invalidated) + [shipment.value.id]
      ensures status == old(status) && mutations == old(mutations)
    {
      toasts := toasts + [Toast(SuccessToast, UpdatedSuccessfully)];
      invalidated := invalidated + [shipment.value.id];
    }

    /** `onError`: an error toast whose text depends on whether `delivered` is selected. */
    method OnError()
      modifies this
      ensures toasts == old(toasts) + [Toast(ErrorToast, ErrorMessage(status))]
      ensures status == old(status) && mutations == old(mutations) && invalidated == old(invalidated)
    {
      if status == Some(Delivered) {
        toasts := toasts + [Toast(ErrorToast, InvalidVerificationCode)];
      } else {
        toasts := toasts + [Toast(ErrorToast, FailedToUpdate)];
      }
    }
  }
}
