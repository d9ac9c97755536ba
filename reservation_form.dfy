/**
 * The reservation form (src/components/ReservationForm.tsx): a seven-field
 * record edited one field at a time and reset on submit, a submit button
 * enabled only when every field is filled, and an availability hint chosen
 * by the user type.
 */
module ReservationForm {
  import opened Toasts

  datatype Field = Name | Email | UserType | Date | StartTime | EndTime | VehicleNumber

  datatype FormData = FormData(
    name: string, email: string, userType: string, date: string,
    startTime: string, endTime: string, vehicleNumber: string)

  /** The initial record, and the one handleSubmit resets to: every field empty. */
  const EmptyForm := FormData("", "", "", "", "", "", "")

  /** `formData[field]`. */
  function Get(fd: FormData, f: Field): string {
    match f
    case Name => fd.name
    case Email => fd.email
    case UserType => fd.userType
    case Date => fd.date
    case StartTime => fd.startTime
    case EndTime => fd.endTime
    case VehicleNumber => fd.vehicleNumber
  }

  /** `{ ...prev, [field]: value }`: the field takes the value, the other six keep theirs. */
  function Set(fd: FormData, f: Field, value: string): (r: FormData)
    ensures Get(r, f) == value
    ensures forall g :: g != f ==> Get(r, g) == Get(fd, g)
  {
    match f
    case Name => fd.(name := value)
    case Email => fd.(email := value)
    case UserType => fd.(userType := value)
    case Date => fd.(date := value)
    case StartTime => fd.(startTime := value)
    case EndTime => fd.(endTime := value)
    case VehicleNumber => fd.(vehicleNumber := value)
  }

  /** The `disabled` expression of the submit button. */
  function SubmitDisabled(fd: FormData): (disabled: bool)
    ensures disabled <==> exists f :: Get(fd, f) == ""
  {
    var disabled := fd.name == "" || fd.email == "" || fd.userType == "" || fd.date == ""
      || fd.startTime == "" || fd.endTime == "" || fd.vehicleNumber == "";
    assert disabled ==> exists f :: Get(fd, f) == "" by {
      if fd.name == "" { assert Get(fd, Name) == ""; }
      else if fd.email == "" { assert Get(fd, Email) == ""; }
      else if fd.userType == "" { assert Get(fd, UserType) == ""; }
      else if fd.date == "" { assert Get(fd, Date) == ""; }
      else if fd.startTime == "" { assert Get(fd, StartTime) == ""; }
      else if fd.endTime == "" { assert Get(fd, EndTime) == ""; }
      else if fd.vehicleNumber == "" { assert Get(fd, VehicleNumber) == ""; }
    }
    disabled
  }

  /** The inputs the form renders: every field except the vehicle number. */
  predicate Rendered(f: Field) {
    f != VehicleNumber
  }

  /** What a user can do with the rendered form: edit a rendered input, or submit. */
  datatype UiEvent = Edit(field: Field, value: string) | Submit

  /** The record after one event. */
  function Step(fd: FormData, e: UiEvent): FormData {
    match e
    case Edit(f, v) => Set(fd, f, v)
    case Submit => EmptyForm
  }

  /** The record after a sequence of events. */
  function Replay(fd: FormData, events: seq<UiEvent>): FormData
    decreases |events|
  {
    if events == [] then fd else Replay(Step(fd, events[0]), events[1..])
  }

  predicate OnlyRenderedEdits(events: seq<UiEvent>) {
    forall i :: 0 <= i < |events| ==> events[i].Edit? ==> Rendered(events[i].field)
  }

  /** No rendered input writes the vehicle number, so an empty one stays empty. */
  lemma {:induction false} VehicleNumberStaysEmpty(fd: FormData, events: seq<UiEvent>)
    requires fd.vehicleNumber == ""
    requires OnlyRenderedEdits(events)
    ensures Replay(fd, events).vehicleNumber == ""
    decreases |events|
  {
    if events != [] {
      var next := Step(fd, events[0]);
      assert Get(next, VehicleNumber) == "";
      assert OnlyRenderedEdits(events[1..]) by {
        forall i | 0 <= i < |events[1..]| ensures events[1..][i].Edit? ==> Rendered(events[1..][i].field) {
          assert events[1..][i] == events[i + 1];
        }
      }
      VehicleNumberStaysEmpty(next, events[1..]);
    }
  }

  /** Whatever the user does with the rendered inputs, the submit button stays disabled. */
  lemma SubmitNeverEnabled(events: seq<UiEvent>)
    requires OnlyRenderedEdits(events)
    ensures SubmitDisabled(Replay(EmptyForm, events))
  {
    VehicleNumberStaysEmpty(EmptyForm, events);
    assert Get(Replay(EmptyForm, events), VehicleNumber) == "";
  }

  /** The hint under "Places Disponibles". */
  datatype Availability = FreePlaces(zone: string, count: nat) | SelectStatus

  function AvailabilityOf(userType: string): (a: Availability)
    ensures a.SelectStatus? <==> userType !in {"professor", "staff", "visitor"}
    ensures userType == "professor" ==> a == FreePlaces("Zone Professeurs", 8)
    ensures userType == "staff" ==> a == FreePlaces("Zone Personnel", 12)
    ensures userType == "visitor" ==> a == FreePlaces("Zone Visiteurs", 22)
  {
    if userType == "professor" then FreePlaces("Zone Professeurs", 8)
    else if userType == "staff" then FreePlaces("Zone Personnel", 12)
    else if userType == "visitor" then FreePlaces("Zone Visiteurs", 22)
    else SelectStatus
  }

  /** The mark beside the hint: a tick once a user type is chosen. */
  function Indicator(userType: string): (mark: char)
    ensures mark == '✓' <==> userType != ""
    ensures mark == '?' <==> userType == ""
  {
    if userType != "" then '✓' else '?'
  }

  /** The part of the record the confirmation toast quotes. */
  datatype Confirmation = Confirmation(date: string, startTime: string, endTime: string)

  /** The form's one useState hook, `formData`, and the toasts it has emitted. */
  class ReservationFormState {
    var formData: FormData
    var toasts: seq<Toast>

    constructor ()
      ensures formData == EmptyForm && toasts == []
      ensures SubmitDisabled(formData)
    {
      formData := EmptyForm;
      toasts := [];
      assert Get(EmptyForm, Name) == "";
    }

    /** handleInputChange. */
    method HandleInputChange(f: Field, value: string)
      modifies this
      ensures formData == Set(old(formData), f, value)
      ensures formData == Step(old(formData), Edit(f, value))
      ensures toasts == old(toasts)
    {
      formData := Set(formData, f, value);
    }

    /**
     * handleSubmit: confirms whatever the record holds, quoting the date and
     * times read before the reset, then empties every field. Nothing is
     * validated here (not even that the end time follows the start time).
     */
    method HandleSubmit() returns (c: Confirmation)
      modifies this
      ensures c == Confirmation(old(formData).date, old(formData).startTime, old(formData).endTime)
      ensures toasts == old(toasts) + [ReservationConfirmed(c.date, c.startTime, c.endTime)]
      ensures formData == EmptyForm && formData == Step(old(formData), Submit)
      ensures forall f :: Get(formData, f) == ""
    {
      c := Confirmation(formData.date, formData.startTime, formData.endTime);
      toasts := toasts + [ReservationConfirmed(c.date, c.startTime, c.endTime)];
      formData := EmptyForm;
    }
  }
}
