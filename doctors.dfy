/** The doctors list: each doctor's picture URL and the booking dialog. */
module Doctors {
  import opened Common
  import Profile

  datatype Doctor = Doctor(id: string, fullname: string, email: string, profileImg: string)

  /** The body of `POST /api/register-appointment`; the date is the text of
      the date field. */
  datatype Booking = Booking(
    doctorId: string,
    doctorName: string,
    patientId: string,
    patientName: string,
    dateOfAppointment: string)

  /** A doctor's picture: the API base, a '/' when the stored path has none,
      then the path; the default picture when no path is stored. */
  function DoctorImageUrl(apiBase: string, profileImg: string): (r: string)
    ensures |r| > 0
    ensures profileImg != "" ==> |r| >= |apiBase| + |profileImg| && r[..|apiBase|] == apiBase
  {
    if profileImg != "" then
      apiBase + (if profileImg[0] == '/' then "" else "/") + profileImg
    else "/default-profile.jpg"
  }

  /** The picture URL is the base, then exactly one '/', then the stored path
      without its own leading '/'; with no path it is the default picture. */
  lemma DoctorImageUrlSpec(apiBase: string, profileImg: string)
    ensures profileImg != "" ==>
      var r, n := DoctorImageUrl(apiBase, profileImg), |apiBase|;
      |r| > n && r[..n] == apiBase && r[n] == '/' &&
      (if profileImg[0] == '/' then r[n..] == profileImg else r[n + 1..] == profileImg)
    ensures profileImg == "" ==> DoctorImageUrl(apiBase, profileImg) == "/default-profile.jpg"
  {
    if profileImg != "" {
      var r, n := DoctorImageUrl(apiBase, profileImg), |apiBase|;
      var sep: string := if profileImg[0] == '/' then "" else "/";
      assert r == apiBase + (sep + profileImg);
      assert r[n..] == sep + profileImg;
    }
  }

  /** The doctor card and the profile screen build the same URL for a stored
      path on the same host, though they write the expression differently. */
  lemma ImageUrlsAgree(apiBase: string, img: string, id: string, name: string)
    requires img != ""
    ensures DoctorImageUrl(apiBase, img) == Profile.ImgSrc("", Some(Profile.User(id, name, img)), apiBase)
  {
    if img[0] != '/' {
      assert apiBase + "/" + img == apiBase + ("/" + img);
    } else {
      assert apiBase + "" == apiBase;
    }
  }

  /** The state of the doctors screen. `bookings` lists the booking requests
      sent; `alert` is the last browser alert shown. `doctors` is `None` when
      a response without a `doctors` field has stored `undefined`, on which
      the render's `doctors.map` throws. */
  class DoctorsView {
    var doctors: Option<seq<Doctor>>
    var loading: bool
    var openDialog: bool
    var selectedDoctor: Option<Doctor>
    var appointmentDate: string
    var snack: Option<Snack>
    var alert: Option<string>
    var bookings: seq<Booking>

    /** The dialog is open only with a doctor selected. */
    ghost predicate Valid()
      reads this`openDialog, this`selectedDoctor
    {
      openDialog ==> selectedDoctor.Some?
    }

    constructor ()
      ensures Valid()
      ensures doctors == Some([]) && loading && !openDialog && selectedDoctor == None
      ensures appointmentDate == "" && snack == None && alert == None && bookings == []
    {
      doctors, loading := Some([]), true;
      openDialog, selectedDoctor, appointmentDate := false, None, "";
      snack, alert, bookings := None, None, [];
    }

    /** The doctor fetch: the list becomes the fetched `doctors` field, taken
        as it is, missing included; a failure keeps the list. Loading ends
        either way. */
    method LoadDoctors(res: Fetch<Option<seq<Doctor>>>)
      modifies this`doctors, this`loading
      ensures !loading
      ensures res.Ok? ==> doctors == res.data
      ensures res.Err? ==> doctors == old(doctors)
    {
      if res.Ok? {
        doctors := res.data;
      }
      loading := false;
    }

    /** "Book Appointment": with no stored user an error is shown and the
        dialog stays as it was; otherwise the doctor is selected and the
        dialog opens. */
    method OpenDialog(doctor: Doctor, storedUser: Option<Profile.User>)
      requires Valid()
      modifies this`selectedDoctor, this`openDialog, this`snack
      ensures Valid()
      ensures storedUser.None? ==>
        openDialog == old(openDialog) && selectedDoctor == old(selectedDoctor) &&
        snack == Some(Snack("Please login to book appointment", Error))
      ensures storedUser.Some? ==>
        openDialog && selectedDoctor == Some(doctor) && snack == old(snack)
    {
      if storedUser.None? {
        snack := Some(Snack("Please login to book appointment", Error));
        return;
      }
      selectedDoctor := Some(doctor);
      openDialog := true;
    }

    /** Closing the dialog forgets the doctor and the date. */
    method CloseDialog()
      modifies this`selectedDoctor, this`appointmentDate, this`openDialog
      ensures Valid()
      ensures selectedDoctor == None && appointmentDate == "" && !openDialog
    {
      selectedDoctor := None;
      appointmentDate := "";
      openDialog := false;
    }

    method SetDate(v: string)
      modifies this`appointmentDate
      ensures appointmentDate == v
    {
      appointmentDate := v;
    }

    /** "Submit" in the open dialog: no booking is sent without a date (an
        alert asks for one) or without a stored user (an error is shown). A
        sent booking closes and resets the dialog when it succeeds and leaves
        it open when it fails. */
    method Submit(storedUser: Option<Profile.User>, res: Fetch<Option<string>>)
      returns (request: Option<Booking>)
      requires Valid() && openDialog
      modifies this`selectedDoctor, this`appointmentDate, this`openDialog, this`snack,
        this`alert, this`bookings
      ensures Valid()
      ensures request.Some? <==> old(appointmentDate) != "" && storedUser.Some?
      ensures old(appointmentDate) == "" ==>
        alert == Some("Select date") && snack == old(snack) && openDialog
      ensures old(appointmentDate) != "" && storedUser.None? ==>
        alert == old(alert) && openDialog &&
        snack == Some(Snack("User info missing. Please login again.", Error))
      ensures request.None? ==>
        bookings == old(bookings) && selectedDoctor == old(selectedDoctor) &&
        appointmentDate == old(appointmentDate)
      ensures request.Some? ==>
        request.value == Booking(old(selectedDoctor).value.id, old(selectedDoctor).value.fullname,
                                 storedUser.value.id, storedUser.value.fullname, old(appointmentDate)) &&
        bookings == old(bookings) + [request.value] && alert == old(alert)
      ensures request.Some? && res.Ok? ==>
        !openDialog && selectedDoctor == None && appointmentDate == "" &&
        snack == Some(Snack(OrElse(res.data, "Appointment booked!"), Success))
      ensures request.Some? && res.Err? ==>
        openDialog && selectedDoctor == old(selectedDoctor) && appointmentDate == old(appointmentDate) &&
        snack == Some(Snack("Failed to book appointment", Error))
    {
      if appointmentDate == "" {
        alert := Some("Select date");
        return None;
      }
      if storedUser.None? {
        snack := Some(Snack("User info missing. Please login again.", Error));
        return None;
      }
      var b := Booking(selectedDoctor.value.id, selectedDoctor.value.fullname,
                       storedUser.value.id, storedUser.value.fullname, appointmentDate);
      bookings := bookings + [b];
      request := Some(b);
      match res {
        case Ok(m) =>
          snack := Some(Snack(OrElse(m, "Appointment booked!"), Success));
          CloseDialog();
        case Err(_) =>
          snack := Some(Snack("Failed to book appointment", Error));
      }
    }
  }
}
