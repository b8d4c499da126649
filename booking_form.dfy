/**
 * The new-booking form (src/pages/BookingForm.jsx): field-by-field updates of the
 * form data, the required-field check that gates submission, the lookup of the
 * chosen waste type and when a price estimate exists, and the submit handler.
 */
module BookingForm {
  import opened Wrappers
  import opened Http
  import opened Browser

  /** A bookable waste category from `/waste-types` (its price is not modelled). */
  datatype WasteType = WasteType(id: string, name: string, category: string, recyclable: bool)

  datatype FormData = FormData(
    pickupAddress: string,
    wasteTypeId: string,
    estimatedWeight: string,
    pickupDate: string,
    pickupTime: string,
    notes: string)

  datatype Field = PickupAddress | WasteTypeId | EstimatedWeight | PickupDate | PickupTime | Notes

  const EmptyForm := FormData("", "", "", "", "", "")

  const IncompleteMessage := "Mohon lengkapi semua field yang diperlukan"
  const CreatedMessage := "Pemesanan berhasil dibuat!"
  const CreateFailedMessage := "Gagal membuat pemesanan"
  const WasteTypesFailedMessage := "Gagal memuat jenis sampah"

  /** The value of one field. */
  function Get(f: FormData, field: Field): string {
    match field
    case PickupAddress => f.pickupAddress
    case WasteTypeId => f.wasteTypeId
    case EstimatedWeight => f.estimatedWeight
    case PickupDate => f.pickupDate
    case PickupTime => f.pickupTime
    case Notes => f.notes
  }

  /** `setFormData({ ...formData, field: value })`: that field changes, every other stays. */
  function Set(f: FormData, field: Field, value: string): (r: FormData)
    ensures Get(r, field) == value
    ensures forall g :: g != field ==> Get(r, g) == Get(f, g)
  {
    match field
    case PickupAddress => f.(pickupAddress := value)
    case WasteTypeId => f.(wasteTypeId := value)
    case EstimatedWeight => f.(estimatedWeight := value)
    case PickupDate => f.(pickupDate := value)
    case PickupTime => f.(pickupTime := value)
    case Notes => f.(notes := value)
  }

  /** The fields the form requires; the notes are optional. */
  const RequiredFields: set<Field> := {WasteTypeId, EstimatedWeight, PickupDate, PickupTime, PickupAddress}

  /** Some required field is empty, so nothing is sent. */
  predicate Incomplete(f: FormData) {
    f.wasteTypeId == "" || f.estimatedWeight == "" || f.pickupDate == "" || f.pickupTime == "" || f.pickupAddress == ""
  }

  /** The form is incomplete exactly when a required field is empty; the notes never matter. */
  lemma IncompleteMeansRequiredEmpty(f: FormData, notes: string)
    ensures Incomplete(f) <==> exists g :: g in RequiredFields && Get(f, g) == ""
    ensures Incomplete(f.(notes := notes)) == Incomplete(f)
  {
    if Incomplete(f) {
      var g :| g in RequiredFields && Get(f, g) == "" by {
        if f.wasteTypeId == "" { assert Get(f, WasteTypeId) == ""; }
        else if f.estimatedWeight == "" { assert Get(f, EstimatedWeight) == ""; }
        else if f.pickupDate == "" { assert Get(f, PickupDate) == ""; }
        else if f.pickupTime == "" { assert Get(f, PickupTime) == ""; }
        else { assert Get(f, PickupAddress) == ""; }
      }
    }
  }

  /** `wasteTypes.find(w => w.id === id)`: the first waste type with that id, if any. */
  function SelectedWasteType(types: seq<WasteType>, id: string): (r: Option<WasteType>)
    ensures r.None? <==> forall i :: 0 <= i < |types| ==> types[i].id != id
    ensures r.Some? ==> exists i :: 0 <= i < |types| && types[i] == r.value && r.value.id == id
                                    && forall j :: 0 <= j < i ==> types[j].id != id
    decreases |types|
  {
    if types == [] then None
    else if types[0].id == id then Some(types[0])
    else
      var r := SelectedWasteType(types[1..], id);
      if r.Some? then FirstMatchAfterHead(types, id, r.value); r else r
  }

  /** A first match in the tail, behind a non-matching head, is the first match of the whole. */
  lemma FirstMatchAfterHead(types: seq<WasteType>, id: string, t: WasteType)
    requires types != [] && types[0].id != id
    requires exists i :: 0 <= i < |types[1..]| && types[1..][i] == t && t.id == id
                         && forall j :: 0 <= j < i ==> types[1..][j].id != id
    ensures exists i :: 0 <= i < |types| && types[i] == t && t.id == id
                        && forall j :: 0 <= j < i ==> types[j].id != id
  {
    var i :| 0 <= i < |types[1..]| && types[1..][i] == t && t.id == id
             && forall j :: 0 <= j < i ==> types[1..][j].id != id;
    forall j | 0 <= j < i + 1
      ensures types[j].id != id
    {
      if j > 0 { assert types[j] == types[1..][j - 1]; }
    }
    assert types[i + 1] == t;
  }

  /** The price estimate: none (`"0.00"`) without a chosen waste type or a weight, else that type at that weight. */
  datatype Estimate = NoEstimate | PriceOf(wasteType: WasteType, weight: string)

  function EstimateOf(types: seq<WasteType>, f: FormData): (e: Estimate)
    ensures e == NoEstimate <==> SelectedWasteType(types, f.wasteTypeId).None? || f.estimatedWeight == ""
    ensures e.PriceOf? ==> e.wasteType.id == f.wasteTypeId && e.wasteType in types && e.weight == f.estimatedWeight
  {
    var selected := SelectedWasteType(types, f.wasteTypeId);
    if selected.Some? && f.estimatedWeight != "" then PriceOf(selected.value, f.estimatedWeight) else NoEstimate
  }

  /** The browser state after a submission: a warning, or the request's result (a toast, and the new booking's page). */
  function SubmitEnv(env: Env, f: FormData, reply: Outcome<string>): (r: Env)
    ensures Incomplete(f) ==> r == env.(toasts := env.toasts + [ErrorToast(IncompleteMessage)])
    ensures !Incomplete(f) && reply.Ok? ==>
              r == env.(toasts := env.toasts + [SuccessToast(CreatedMessage)], pathname := "/bookings/" + reply.value)
    ensures !Incomplete(f) && reply.Err? ==>
              r == env.(toasts := env.toasts + [ErrorToast(DetailOr(reply.error, CreateFailedMessage))])
    ensures r.storage == env.storage && |r.toasts| == |env.toasts| + 1
  {
    if Incomplete(f) then env.(toasts := env.toasts + [ErrorToast(IncompleteMessage)])
    else match reply
      case Ok(id) => env.(toasts := env.toasts + [SuccessToast(CreatedMessage)], pathname := "/bookings/" + id)
      case Err(e) => env.(toasts := env.toasts + [ErrorToast(DetailOr(e, CreateFailedMessage))])
  }

  /** The form page's state. */
  class Page {
    var formData: FormData
    var loading: bool
    var wasteTypes: seq<WasteType>

    constructor ()
      ensures formData == EmptyForm && !loading && wasteTypes == []
    {
      formData := EmptyForm;
      loading := false;
      wasteTypes := [];
    }

    /** One input's change handler. */
    method Update(field: Field, value: string)
      modifies this`formData
      ensures formData == Set(old(formData), field, value)
    {
      formData := Set(formData, field, value);
    }

    /** `fetchWasteTypes` (a plain request, outside the shell's client). */
    method FetchWasteTypes(w: Window, reply: Outcome<seq<WasteType>>)
      modifies this`wasteTypes, w`toasts
      ensures reply.Ok? ==> wasteTypes == reply.value && w.toasts == old(w.toasts)
      ensures reply.Err? ==> wasteTypes == old(wasteTypes) && w.toasts == old(w.toasts) + [ErrorToast(WasteTypesFailedMessage)]
    {
      if reply.Ok? {
        wasteTypes := reply.value;
      } else {
        w.Show(ErrorToast(WasteTypesFailedMessage));
      }
    }

    /** `handleSubmit`: send only a complete form; loading is cleared however the request ends. */
    method Submit(w: Window, reply: Outcome<string>) returns (sent: bool)
      modifies this`loading, w`toasts, w`pathname
      ensures sent <==> !Incomplete(formData)
      ensures w.Snapshot() == SubmitEnv(old(w.Snapshot()), formData, reply)
      ensures loading == (if sent then false else old(loading))
    {
      if Incomplete(formData) {
        w.Show(ErrorToast(IncompleteMessage));
        return false;
      }
      loading := true;
      match reply {
        case Ok(id) =>
          w.Show(SuccessToast(CreatedMessage));
          w.Navigate("/bookings/" + id);
        case Err(e) =>
          w.Show(ErrorToast(DetailOr(e, CreateFailedMessage)));
      }
      loading := false;
      return true;
    }
  }
}
