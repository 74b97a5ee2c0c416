/** The appointments screen: the role-based visibility filter, the split into
    upcoming and past appointments, cancellation, and the receptionist's bill
    dialog with its numeric field validator. A date is a whole-number
    timestamp, or nothing when the stored text does not parse (JavaScript's
    Invalid Date, which compares false with every time). */
module Appointments {
  import opened Common
  import opened Text
  import opened Seqs

  /** One stored appointment. A missing `doctorId` or `patientId` is `None`
      (JavaScript `undefined`), which `===` finds equal to a missing user id. */
  datatype Appointment = Appointment(
    id: string,
    doctorId: Option<string>,
    doctorName: string,
    patientId: Option<string>,
    patientName: string,
    date: Option<int>,
    status: Option<string>)

  /** The roles the screen tells apart. */
  datatype Role = Patient | Doctor | Receptionist | Other

  /** The role read from storage: missing counts as the empty string, the
      text is lower-cased, and "admin" is handled like "receptionist". */
  function RoleOf(stored: Option<string>): (r: Role)
    ensures stored.None? ==> r == Other
    ensures r == Receptionist <==> ToLower(stored.GetOr("")) in {"receptionist", "admin"}
  {
    var r := ToLower(stored.GetOr(""));
    if r == "patient" then Patient
    else if r == "doctor" then Doctor
    else if r == "receptionist" || r == "admin" then Receptionist
    else Other
  }

  /** The role does not depend on letter case; "Admin" is a receptionist and a
      missing role is none of the named ones. */
  lemma RoleIgnoresCase(s: string)
    ensures RoleOf(Some(s)) == RoleOf(Some(ToLower(s)))
    ensures RoleOf(Some("Admin")) == Receptionist && RoleOf(Some("ADMIN")) == Receptionist
    ensures RoleOf(None) == Other
  {
    ToLowerIdempotent(s);
    assert ToLower("Admin") == "admin";
    assert ToLower("ADMIN") == "admin";
  }

  /** Whether a user with this role and id is shown an appointment. */
  predicate Sees(role: Role, userId: Option<string>, a: Appointment)
  {
    match role
    case Patient => a.patientId == userId
    case Doctor => a.doctorId == userId
    case _ => true
  }

  /** The filter conditions, one closure per use, so that the lemmas below
      talk about the very conditions the screen filters with. */
  function SeenBy(role: Role, userId: Option<string>): Appointment -> bool
  {
    a => Sees(role, userId, a)
  }

  function NotBefore(now: int): Appointment -> bool
  {
    (a: Appointment) => a.date.Some? && a.date.value >= now
  }

  function Before(now: int): Appointment -> bool
  {
    (a: Appointment) => a.date.Some? && a.date.value < now
  }

  function Dated(): Appointment -> bool
  {
    (a: Appointment) => a.date.Some?
  }

  function HasId(id: string): Appointment -> bool
  {
    (a: Appointment) => a.id == id
  }

  function OtherId(id: string): Appointment -> bool
  {
    (a: Appointment) => a.id != id
  }

  /** `appointments.filter` with the role test. */
  function Visible(appts: seq<Appointment>, role: Role, userId: Option<string>): (r: seq<Appointment>)
    ensures |r| <= |appts|
    ensures forall a :: a in r ==> Sees(role, userId, a)
  {
    Filter(appts, SeenBy(role, userId))
  }

  function Upcoming(visible: seq<Appointment>, now: int): (r: seq<Appointment>)
    ensures |r| <= |visible|
    ensures forall a :: a in r ==> a in visible && a.date.Some? && a.date.value >= now
  {
    Filter(visible, NotBefore(now))
  }

  function Past(visible: seq<Appointment>, now: int): (r: seq<Appointment>)
    ensures |r| <= |visible|
    ensures forall a :: a in r ==> a in visible && a.date.Some? && a.date.value < now
  {
    Filter(visible, Before(now))
  }

  function WithoutId(appts: seq<Appointment>, id: string): (r: seq<Appointment>)
    ensures |r| <= |appts|
    ensures forall a :: a in r ==> a in appts && a.id != id
  {
    Filter(appts, OtherId(id))
  }

  /** A patient is shown exactly their own appointments, a doctor exactly
      those with them, and every other role all of them, in stored order. */
  lemma VisibleSpec(appts: seq<Appointment>, role: Role, userId: Option<string>)
    ensures forall a :: a in Visible(appts, role, userId) <==> a in appts && Sees(role, userId, a)
    ensures role == Patient ==> forall a :: a in Visible(appts, role, userId) ==> a.patientId == userId
    ensures role == Doctor ==> forall a :: a in Visible(appts, role, userId) ==> a.doctorId == userId
    ensures role == Receptionist || role == Other ==> Visible(appts, role, userId) == appts
  {
    var p := SeenBy(role, userId);
    forall a | a in appts && Sees(role, userId, a) ensures a in Visible(appts, role, userId) {
      var i :| 0 <= i < |appts| && appts[i] == a;
      assert p(appts[i]);
    }
    if role == Receptionist || role == Other {
      FilterAll(appts, p);
    }
  }

  /** Upcoming and past split the visible appointments that have a date:
      each is in the upcoming list exactly when its date is not before `now`
      and in the past list exactly when it is, and together the lists hold
      every dated visible appointment as often as it occurs. An appointment
      without a valid date is in neither list. */
  lemma UpcomingPastPartition(visible: seq<Appointment>, now: int)
    ensures multiset(Upcoming(visible, now)) + multiset(Past(visible, now)) == multiset(Filter(visible, Dated()))
    ensures forall a :: a in visible ==>
      (a in Upcoming(visible, now) <==> a.date.Some? && a.date.value >= now) &&
      (a in Past(visible, now) <==> a.date.Some? && a.date.value < now)
  {
    var p, q := NotBefore(now), Before(now);
    FilterSplitWithin(visible, p, q, Dated());
    forall a | a in visible
      ensures (a in Upcoming(visible, now) <==> a.date.Some? && a.date.value >= now) &&
        (a in Past(visible, now) <==> a.date.Some? && a.date.value < now)
    {
      var i :| 0 <= i < |visible| && visible[i] == a;
      assert p(visible[i]) == (a.date.Some? && a.date.value >= now);
      assert q(visible[i]) == (a.date.Some? && a.date.value < now);
    }
  }

  /** Both lists keep the relative order of the visible list: splitting a
      concatenation is concatenating the splits. */
  lemma UpcomingPastKeepOrder(v1: seq<Appointment>, v2: seq<Appointment>, now: int)
    ensures Upcoming(v1 + v2, now) == Upcoming(v1, now) + Upcoming(v2, now)
    ensures Past(v1 + v2, now) == Past(v1, now) + Past(v2, now)
  {
    FilterAppend(v1, v2, NotBefore(now));
    FilterAppend(v1, v2, Before(now));
  }

  /** Removing an id drops every appointment with that id and keeps every
      other appointment, as many times as it occurred. */
  lemma WithoutIdSpec(appts: seq<Appointment>, id: string)
    ensures forall a :: a in WithoutId(appts, id) ==> a.id != id
    ensures forall a: Appointment :: a.id != id ==> multiset(WithoutId(appts, id))[a] == multiset(appts)[a]
  {
    var p, q := OtherId(id), HasId(id);
    FilterSplit(appts, p, q);
    forall a: Appointment | a.id != id ensures multiset(WithoutId(appts, id))[a] == multiset(appts)[a] {
      assert a !in Filter(appts, q);
    }
  }

  /** The regular expression `^\d*\.?\d*$` read left to right: digits are
      taken in either half, a single '.' moves from the first digit run to the
      second, and any other character, or a second '.', fails the match. */
  function MatchesDecimal(v: string, seenDot: bool): (r: bool)
    ensures r ==> DigitsAndDots(v)
    ensures seenDot && r ==> forall i :: 0 <= i < |v| ==> IsDigit(v[i])
  {
    if |v| == 0 then true
    else if IsDigit(v[0]) then MatchesDecimal(v[1..], seenDot)
    else if v[0] == '.' && !seenDot then MatchesDecimal(v[1..], true)
    else false
  }

  /** The test `v === '' || /^\d*\.?\d*$/.test(v)` of the bill fields. */
  predicate IsBillInput(v: string): (r: bool)
    ensures v == "" ==> r
    ensures r ==> DigitsAndDots(v)
  {
    v == "" || MatchesDecimal(v, false)
  }

  function DotCount(v: string): nat
  {
    if |v| == 0 then 0 else (if v[0] == '.' then 1 else 0) + DotCount(v[1..])
  }

  predicate DigitsAndDots(v: string)
  {
    forall i :: 0 <= i < |v| ==> IsDigit(v[i]) || v[i] == '.'
  }

  lemma {:induction false} MatchesDecimalSpec(v: string, seenDot: bool)
    ensures MatchesDecimal(v, seenDot) <==>
      DigitsAndDots(v) && DotCount(v) + (if seenDot then 1 else 0) <= 1
  {
    if |v| > 0 {
      MatchesDecimalSpec(v[1..], seenDot);
      MatchesDecimalSpec(v[1..], true);
      assert forall i :: 1 <= i < |v| ==> v[1..][i - 1] == v[i];
    }
  }

  /** A bill field accepts exactly the strings made of digits with at most
      one '.', the empty string included. */
  lemma BillInputSpec(v: string)
    ensures IsBillInput(v) <==> DigitsAndDots(v) && DotCount(v) <= 1
  {
    MatchesDecimalSpec(v, false);
  }

  /** The fields of the bill form, in display order. */
  const BillFields: seq<string> := ["appointmentFee", "doctorFee", "ambulanceCharges",
    "labCharges", "bedCharges", "xrayCharges", "medicineCharges"]

  /** The bill form with every field empty. */
  const EmptyBill: map<string, string> := map f | f in BillFields :: ""

  /** What the bill GET returns: the stored bill's fields by name. */
  type Bill = map<string, string>

  /** The body of `POST /generate-bill`, without its floating-point total. */
  datatype BillRequest = BillRequest(appointmentId: string, fields: map<string, string>)

  /** The state of the appointments screen for one signed-in user. */
  class AppointmentsView {
    const role: Role
    const userId: Option<string>
    var appointments: seq<Appointment>
    var loading: bool
    var snack: Option<Snack>
    var billOpen: bool
    var billApptId: string
    var billData: map<string, string>
    var viewOpen: bool
    var viewBill: Option<Bill>

    /** Mounting the screen with the role and user id read from storage. */
    constructor (storedRole: Option<string>, userId: Option<string>)
      ensures role == RoleOf(storedRole) && this.userId == userId
      ensures appointments == [] && loading && snack == None
      ensures !billOpen && billApptId == "" && billData == EmptyBill
      ensures !viewOpen && viewBill == None
    {
      role, this.userId := RoleOf(storedRole), userId;
      appointments, loading, snack := [], true, None;
      billOpen, billApptId, billData := false, "", EmptyBill;
      viewOpen, viewBill := false, None;
    }

    /** The list fetch: the stored list becomes the fetched one (empty when
        the field is missing); a failure leaves it and shows an error. Either
        way loading ends. */
    method Load(res: Fetch<Option<seq<Appointment>>>)
      modifies this`appointments, this`loading, this`snack
      ensures !loading
      ensures res.Ok? ==> appointments == res.data.GetOr([]) && snack == old(snack)
      ensures res.Err? ==>
        appointments == old(appointments) && snack == Some(Snack("Could not load appointments", Error))
    {
      match res {
        case Ok(data) => appointments := data.GetOr([]);
        case Err(_) => snack := Some(Snack("Could not load appointments", Error));
      }
      loading := false;
    }

    /** The two sections the screen shows at time `now`. */
    function Sections(now: int): (r: (seq<Appointment>, seq<Appointment>))
      reads this
      ensures multiset(r.0) + multiset(r.1) == multiset(Filter(Visible(appointments, role, userId), Dated()))
      ensures forall a :: a in r.0 ==> a.date.Some? && a.date.value >= now && Sees(role, userId, a)
      ensures forall a :: a in r.1 ==> a.date.Some? && a.date.value < now && Sees(role, userId, a)
    {
      var visible := Visible(appointments, role, userId);
      UpcomingPastPartition(visible, now);
      VisibleSpec(appointments, role, userId);
      (Upcoming(visible, now), Past(visible, now))
    }

    /** Cancelling: after a successful request every appointment with that id
        is gone and the rest stay in order; a failed request changes no
        appointment. */
    method Cancel(id: string, res: Fetch<()>)
      modifies this`appointments, this`snack
      ensures res.Ok? ==>
        appointments == WithoutId(old(appointments), id) &&
        snack == Some(Snack("Appointment cancelled", Success))
      ensures res.Err? ==>
        appointments == old(appointments) && snack == Some(Snack("Failed to cancel", Error))
    {
      if res.Ok? {
        snack := Some(Snack("Appointment cancelled", Success));
        appointments := WithoutId(appointments, id);
      } else {
        snack := Some(Snack("Failed to cancel", Error));
      }
    }

    /** Opening the bill dialog for an appointment starts from an empty form. */
    method OpenBillDialog(appointmentId: string)
      modifies this`billApptId, this`billData, this`billOpen
      ensures billApptId == appointmentId && billOpen
      ensures billData.Keys == set f | f in BillFields
      ensures forall f :: f in billData ==> billData[f] == ""
    {
      billApptId := appointmentId;
      billData := EmptyBill;
      billOpen := true;
    }

    /** An edit of one bill field: a numeric entry replaces that field alone,
        anything else is ignored. */
    method EditBill(field: string, v: string) returns (accepted: bool)
      modifies this`billData
      ensures accepted <==> DigitsAndDots(v) && DotCount(v) <= 1
      ensures accepted ==> billData == old(billData)[field := v]
      ensures !accepted ==> billData == old(billData)
    {
      BillInputSpec(v);
      accepted := IsBillInput(v);
      if accepted {
        billData := billData[field := v];
      }
    }

    /** Submitting the bill sends the form; success closes the dialog, failure
        leaves it open. */
    method SubmitBill(res: Fetch<()>) returns (request: BillRequest)
      modifies this`billOpen, this`snack
      ensures request == BillRequest(billApptId, billData)
      ensures res.Ok? ==> !billOpen && snack == Some(Snack("Bill generated", Success))
      ensures res.Err? ==>
        billOpen == old(billOpen) && snack == Some(Snack("Failed to generate bill", Error))
    {
      request := BillRequest(billApptId, billData);
      if res.Ok? {
        snack := Some(Snack("Bill generated", Success));
        billOpen := false;
      } else {
        snack := Some(Snack("Failed to generate bill", Error));
      }
    }

    method CloseBillDialog()
      modifies this`billOpen
      ensures !billOpen
    {
      billOpen := false;
    }

    /** Viewing a bill: the bill of `appointmentId` is requested (`query` is
        the request's `appointmentId` parameter). The dialog opens only when a
        bill comes back; a missing bill gives a warning, a failure an error,
        and both leave the dialog as it was. */
    method OpenViewDialog(appointmentId: string, res: Fetch<Option<Bill>>) returns (query: string)
      modifies this`viewOpen, this`viewBill, this`snack
      ensures query == appointmentId
      ensures res.Ok? && res.data.Some? ==>
        viewOpen && viewBill == res.data && snack == old(snack)
      ensures res.Ok? && res.data.None? ==>
        viewOpen == old(viewOpen) && viewBill == old(viewBill) &&
        snack == Some(Snack("No bill found", Warning))
      ensures res.Err? ==>
        viewOpen == old(viewOpen) && viewBill == old(viewBill) &&
        snack == Some(Snack("Could not fetch bill", Error))
    {
      query := appointmentId;
      match res {
        case Ok(bill) =>
          if bill.None? {
            snack := Some(Snack("No bill found", Warning));
            return;
          }
          viewBill := bill;
          viewOpen := true;
        case Err(_) =>
          snack := Some(Snack("Could not fetch bill", Error));
      }
    }

    method CloseViewDialog()
      modifies this`viewOpen
      ensures !viewOpen
    {
      viewOpen := false;
    }
  }
}
