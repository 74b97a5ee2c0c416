# Hospital booking client: a Dafny model of its screen logic

The repository is a React client for a hospital booking system. Patients,
doctors and receptionists sign in, book and cancel appointments, handle bills,
manage a profile picture and chat in real time. This project models the state
machines and pure helpers inside six screens:

- **DoctorChat** (`doctor_chat.dfy`): the doctor's contact list, built from the
  senders of the doctor's message history and of live traffic. Duplicates are
  dropped by `senderId`, and the first entry seen for a sender is kept. Also the
  selected contact's message log and the compose box.
- **Chat** (`chat.dfy`): the patient's conversation with one doctor. It covers
  the choice of history query, replacing the log from history, appending live
  messages, and sending: the message is emitted and posted at once, and it
  joins the log when the post settles.
- **Appointments** (`appointments.dfy`): which appointments a role may see, the
  split into upcoming and past, cancelling, and the receptionist's bill dialog
  with its numeric field check `^\d*\.?\d*$`.
- **ForgotPassword** (`forgot_password.dfy`): the three-step reset wizard, with
  an exact OTP string check and a password-match check.
- **Profile** (`profile.dfy`): the avatar source, the session check on mount,
  uploading and removing the image, and logout.
- **Doctors** (`doctors.dfy`): each doctor's picture URL and the booking dialog.

Shared pieces:

- `common.dfy`: optional values, a request outcome `Fetch<T>` (`Ok(data)` or
  `Err(message)`), the snackbar notice, and JavaScript's `s || fallback`.
- `text.dfy`: JavaScript `trim`, ASCII `toLowerCase`, and decimal `toString` of whole numbers below 2^53
  with a round-trip proof.
- `seqs.dfy`: `Array.prototype.filter` with its order and partition lemmas.
- `messages.dfy`: the chat records.

How inputs and outputs are modelled:

- Every HTTP call is a `Fetch` parameter: the outcome the handler receives.
- Socket emits go into an `outbox` sequence. Chat messages posted for storage
  go into `saved`. Booking and password requests go into sequences of requests.
- localStorage is a `map<string, string>`.
- The clock is a parameter: a display time string for a message, and an
  integer `now` for appointments.
- `JSON.parse`, `JSON.stringify` and `URL.createObjectURL` are parameters too:
  an already decoded user, the serialized text, and the object URL.
- A missing string field and an empty one are both falsy in the source, and
  where only truthiness is tested the model writes both as `""`. Where `===`
  compares a field that may be missing (`patientId` and `doctorId` against the
  user id in `Appointments.jsx:79-80`), the field is an `Option`, so a missing
  field equals a missing user id there, as `undefined === undefined` does.

Two behaviours of the code worth knowing:

- **Failed history fetch.** A failed history fetch leaves the log as it was
  (`DoctorChat.jsx:130-133`, `Chat.jsx:37-40`); it is not cleared.
- **Duplicate fetch.** `DoctorChat.jsx` runs the same history fetch from two
  effects (62-77 and 116-134). `DoctorChatView.LoadHistory` models one run of
  it.

## Model

| member | source | states |
|---|---|---|
| Seqs.Filter | src/components/Appointments.jsx:78-88 | the result holds only elements of the input that meet the condition, holds every element that does, and is no longer than the input |
| Seqs.FilterAppend | src/components/Appointments.jsx:86-88 | filtering a concatenation is concatenating the filtered parts, so kept elements keep their relative order |
| Seqs.FilterSplit | src/components/Appointments.jsx:87-88 | filtering with a condition and with its negation gives two lists whose multisets add up to the input's |
| Seqs.FilterAll | src/components/Appointments.jsx:81-82 | a condition every element meets keeps the list unchanged |
| Text.Trim | src/components/DoctorChat.jsx:158 | `trim()` neither starts nor ends with whitespace, is no longer than the input, and is empty exactly when every character is whitespace |
| Text.TrimStart | src/components/DoctorChat.jsx:158 | the result is a suffix of the input, what was removed is all whitespace, and the result does not start with whitespace |
| Text.TrimEnd | src/components/DoctorChat.jsx:158 | the result is a prefix of the input, what was removed is all whitespace, and the result does not end with whitespace |
| Text.TrimBothBlank | src/components/Chat.jsx:63 | trimming both ends gives the empty string exactly when every character is JavaScript whitespace |
| Text.ToLower | src/components/Appointments.jsx:38 | same length, each character lowered, no upper-case ASCII letter left |
| Text.NatToString | src/components/ForgotPassword.jsx:28 | the exact digits of a whole number: a non-empty string of decimal digits with no leading zero unless it is "0" (what `toString` writes below 2^53) |
| Text.NatToStringRoundTrip | src/components/ForgotPassword.jsx:28 | reading back the digits `toString` wrote gives the same number |
| Text.NatToStringInjective | src/components/ForgotPassword.jsx:28 | different OTP numbers are stored as different strings |
| DoctorChat.ContactOf | src/components/DoctorChat.jsx:44-49 | a contact made from a message keeps its sender id and name, addresses replies to that sender, and takes the sender's role as the reply's receiver role |
| DoctorChat.AddContact | src/components/DoctorChat.jsx:40-53 | the contact update keeps every earlier entry in place, adds at most one, and afterwards the sender is known |
| DoctorChat.UniqueSenders | src/components/DoctorChat.jsx:95-105 | the reduce yields no more contacts than there are messages, and at least one when there is a message |
| DoctorChat.FirstIndex | src/components/DoctorChat.jsx:96 | the position of a message from that sender, with no earlier message from it |
| DoctorChat.AddContactSpec | src/components/DoctorChat.jsx:40-53 | a live message keeps all earlier contacts in place; a known sender changes nothing; an unknown one appends exactly one contact, taken from the message, at the end; senders stay distinct |
| DoctorChat.UniqueSendersCover | src/components/DoctorChat.jsx:95-105 | the derived contacts hold an entry for a sender exactly when some message in the history came from it, and no sender twice |
| DoctorChat.UniqueSendersFirstSeen | src/components/DoctorChat.jsx:97-102 | each contact carries the sender name of its sender's first message, `receiverId == senderId`, and `receiverModel` equal to that message's `senderModel` |
| DoctorChat.UniqueSendersOrder | src/components/DoctorChat.jsx:95-105 | contacts appear in the order in which their senders first occur in the history |
| DoctorChat.DeriveContacts | src/components/DoctorChat.jsx:94-106 | the accumulating loop builds exactly the specified contact list: one entry per distinct sender, nothing else |
| DoctorChat.DoctorChatView.constructor | src/components/DoctorChat.jsx:14-20 | the screen starts with no messages, no contacts, nothing selected and an empty compose box |
| DoctorChat.DoctorChatView.JoinDoctorRoom | src/components/DoctorChat.jsx:25-31 | with a doctor id, one `joinRoom` with the doctor as both sender and receiver is emitted; otherwise nothing |
| DoctorChat.DoctorChatView.ReceiveInDoctorRoom | src/components/DoctorChat.jsx:33-53 | the message joins the log only when a contact is selected and it comes from that contact; the contact list gains the sender only if the sender is new; senders stay distinct |
| DoctorChat.DoctorChatView.LoadContacts | src/components/DoctorChat.jsx:82-113 | without a doctor id the error is set and nothing is fetched; a success replaces the contacts with the distinct senders of the fetched list (empty if missing); a failure sets the error and keeps the contacts |
| DoctorChat.DoctorChatView.Select | src/components/DoctorChat.jsx:213 | clicking a contact selects exactly it |
| DoctorChat.DoctorChatView.LoadHistory | src/components/DoctorChat.jsx:116-134 | with a doctor and a selected contact the pair history is queried; a success replaces the log with the fetched list or the empty list; a failure, or no query, keeps the log |
| DoctorChat.DoctorChatView.JoinPairRoom | src/components/DoctorChat.jsx:139-146 | with a selected contact, one `joinRoom` for the doctor and that contact is emitted |
| DoctorChat.DoctorChatView.ReceiveInPairRoom | src/components/DoctorChat.jsx:148-150 | every message in the pair room is appended at the end, earlier messages kept in order |
| DoctorChat.DoctorChatView.Type | src/components/DoctorChat.jsx:309 | the compose box holds the typed text |
| DoctorChat.DoctorChatView.Send | src/components/DoctorChat.jsx:157-179 | whitespace-only text or no selection changes nothing and emits nothing; otherwise one message from the doctor to the selected contact, as "Doctor" to "Patient", with the typed text is emitted, posted, and waits for the post to settle; the log and the compose box are not touched yet |
| DoctorChat.DoctorChatView.SendSettled | src/components/DoctorChat.jsx:171-181 | when the post of a pending message settles, whatever its outcome, that message is appended at the end of the log, the compose box is cleared whatever it holds by then, and the message stops waiting |
| Chat.HistoryParams | src/components/Chat.jsx:25-31 | a user whose role is exactly "Doctor" queries by `receiverId` = own id; anyone else queries `user1` = doctor, `user2` = self |
| Chat.PatientChatView.constructor | src/components/Chat.jsx:12-15 | the screen starts with an empty log and compose box |
| Chat.PatientChatView.Mount | src/components/Chat.jsx:17-60 | with no doctor or no user nothing is fetched or emitted; otherwise the history query is `HistoryParams` and one `joinRoom` for the pair is emitted |
| Chat.PatientChatView.LoadHistory | src/components/Chat.jsx:33-41 | a success replaces the log with the fetched list, or the empty list when missing; a failure keeps it |
| Chat.PatientChatView.Receive | src/components/Chat.jsx:53-55 | a received message is appended at the end, earlier ones kept in order |
| Chat.PatientChatView.Type | src/components/Chat.jsx:163 | the compose box holds the typed text |
| Chat.PatientChatView.Send | src/components/Chat.jsx:62-83 | whitespace-only text changes nothing and emits nothing; otherwise one message from the patient to the doctor, as "Patient" to "Doctor", with the typed text is emitted, posted, and waits for the post to settle; the log and the compose box are not touched yet |
| Chat.PatientChatView.SendSettled | src/components/Chat.jsx:77-86 | when the post of a pending message settles, whatever its outcome, that message is appended at the end of the log, the compose box is cleared whatever it holds by then, and the message stops waiting |
| Appointments.RoleOf | src/components/Appointments.jsx:38-42 | a missing role is none of the named roles; the role is receptionist exactly when the lower-cased text is "receptionist" or "admin" |
| Appointments.RoleIgnoresCase | src/components/Appointments.jsx:38-42 | the role does not depend on letter case; "Admin" counts as receptionist; a missing role is none of the named ones |
| Appointments.Visible | src/components/Appointments.jsx:78-83 | the visible list is no longer than the stored one and holds only appointments the role and user id may see |
| Appointments.Upcoming | src/components/Appointments.jsx:87 | upcoming holds only visible appointments with a valid date not before `now` |
| Appointments.Past | src/components/Appointments.jsx:88 | past holds only visible appointments with a valid date before `now` |
| Appointments.WithoutId | src/components/Appointments.jsx:95 | the list after a cancel is no longer than before and holds only earlier appointments whose id differs from the cancelled one |
| Appointments.VisibleSpec | src/components/Appointments.jsx:78-83 | a patient sees exactly the appointments with their `patientId`, a doctor exactly those with their `doctorId`, every other role all of them unchanged |
| Appointments.UpcomingPastPartition | src/components/Appointments.jsx:86-88 | upcoming and past together hold each visible appointment with a valid date as often as it occurs; it is upcoming exactly when its date is not before `now` and past exactly when it is before; an appointment without a valid date is in neither |
| Appointments.UpcomingPastKeepOrder | src/components/Appointments.jsx:86-88 | both lists keep the visible list's relative order |
| Appointments.WithoutIdSpec | src/components/Appointments.jsx:95 | no appointment with the cancelled id remains and every other appointment stays, with its multiplicity |
| Appointments.MatchesDecimal | src/components/Appointments.jsx:111 | whatever the regular expression accepts is made of digits and dots only, and of digits only once a dot has been read |
| Appointments.IsBillInput | src/components/Appointments.jsx:111 | the empty string is accepted, and anything accepted is made of digits and dots only |
| Appointments.MatchesDecimalSpec | src/components/Appointments.jsx:111 | the left-to-right reading of `^\d*\.?\d*$` accepts exactly digit-and-dot strings with dots counted against the one allowed |
| Appointments.BillInputSpec | src/components/Appointments.jsx:109-114 | a bill field accepts a value exactly when it is digits with at most one '.', the empty string included |
| Appointments.AppointmentsView.constructor | src/components/Appointments.jsx:37-57 | the role is read lower-cased from storage; the list is empty and loading; both dialogs are closed and the bill form is empty |
| Appointments.AppointmentsView.Load | src/components/Appointments.jsx:63-75 | a success stores the fetched list (empty if missing); a failure keeps it and shows an error; loading ends either way |
| Appointments.AppointmentsView.Sections | src/components/Appointments.jsx:78-88 | the two sections shown are a partition of what this user may see, split by `now` |
| Appointments.AppointmentsView.Cancel | src/components/Appointments.jsx:91-100 | a successful cancel removes every appointment with that id; a failed one keeps the list and shows an error |
| Appointments.AppointmentsView.OpenBillDialog | src/components/Appointments.jsx:103-107 | the dialog opens for that appointment with all seven bill fields empty |
| Appointments.AppointmentsView.EditBill | src/components/Appointments.jsx:109-114 | an edit is accepted exactly for numeric text; an accepted edit changes only that field; a rejected one changes nothing |
| Appointments.AppointmentsView.SubmitBill | src/components/Appointments.jsx:122-135 | the form is sent for the recorded appointment; success closes the dialog, failure leaves it as it was |
| Appointments.AppointmentsView.CloseBillDialog | src/components/Appointments.jsx:282 | the bill dialog is closed |
| Appointments.AppointmentsView.OpenViewDialog | src/components/Appointments.jsx:138-153 | the bill of the given appointment is requested; the view dialog opens with the returned bill only when one is returned; no bill gives a warning and a failure an error, both leaving the dialog as it was |
| Appointments.AppointmentsView.CloseViewDialog | src/components/Appointments.jsx:308 | the view dialog is closed |
| ForgotPassword.OtpString | src/components/ForgotPassword.jsx:28 | a missing OTP field gives nothing (the read throws); a numeric OTP gives its decimal digits; a string OTP is kept as it is, leading zeros included |
| ForgotPassword.OtpGateExact | src/components/ForgotPassword.jsx:39 | for a numeric OTP, an entry passes the check only if it is the OTP's own digits; an entry with a leading zero never passes for a non-zero numeric OTP |
| ForgotPassword.PasswordWizard.constructor | src/components/ForgotPassword.jsx:6-11 | the wizard starts at step 1 with every field empty |
| ForgotPassword.PasswordWizard.SetEmail | src/components/ForgotPassword.jsx:102 | the e-mail field holds the typed text |
| ForgotPassword.PasswordWizard.SetEnteredOtp | src/components/ForgotPassword.jsx:122 | the OTP field holds the typed text |
| ForgotPassword.PasswordWizard.SetPassword | src/components/ForgotPassword.jsx:143 | the password field holds the typed text |
| ForgotPassword.PasswordWizard.SetRetypePassword | src/components/ForgotPassword.jsx:153 | the retype field holds the typed text |
| ForgotPassword.PasswordWizard.SubmitEmail | src/components/ForgotPassword.jsx:21-34 | one OTP request is posted; success stores a numeric OTP (a whole number below 2^53) as `toString` writes it, or a string OTP as it is, and moves to step 2; a response without the OTP field ends with the generic error at step 1; failure stays at step 1 with the server's message or a generic one; the step stays in 1..3 and does not decrease |
| ForgotPassword.PasswordWizard.SubmitOtp | src/components/ForgotPassword.jsx:37-45 | the step becomes 3 exactly when the entered OTP equals the stored one; otherwise it stays 2 and "Invalid OTP" is shown |
| ForgotPassword.PasswordWizard.ResetPassword | src/components/ForgotPassword.jsx:48-69 | differing passwords send no request and stay at step 3; otherwise one update is posted and a success schedules the move to login |
| Profile.ImgSrc | src/components/Profile.jsx:41-50 | the avatar source is never empty, and a non-empty preview is always the source |
| Profile.HasSession | src/components/Profile.jsx:29-31 | a session needs both the login flag and the user entry, and a login flag other than "true" means no session |
| Profile.LeadingSlash | src/components/Profile.jsx:44-46 | the result starts with '/'; a path that already does is kept; any other gets exactly one '/' in front |
| Profile.ImgSrcSpec | src/components/Profile.jsx:41-50 | a preview always wins; otherwise a stored image gives host, one '/', then the path without its own leading '/'; with neither, "/default-avatar.png" |
| Profile.ClearSession | src/components/Profile.jsx:99-102 | `isLoggedIn` becomes "false", `user` and `role` are gone, and every other key keeps its value; no key is added |
| Profile.LogoutEndsSession | src/components/Profile.jsx:29-31 | after logout the mount check finds no session |
| Profile.ProfileView.ImageSource | src/components/Profile.jsx:41-50 | the avatar shown now is never empty, is the preview when there is one, and is "/default-avatar.png" with no preview and no user |
| Profile.ProfileView.constructor | src/components/Profile.jsx:18-23 | no user, an empty role, no chosen file and no preview |
| Profile.ProfileView.Mount | src/components/Profile.jsx:26-38 | without the login flag "true" or a non-empty stored user the screen goes to login; otherwise it shows the decoded user and the stored role and clears the preview |
| Profile.ProfileView.ChooseFile | src/components/Profile.jsx:53-57 | the chosen file is kept; a file becomes the preview; choosing none leaves the preview |
| Profile.ProfileView.Upload | src/components/Profile.jsx:59-83 | without a file or a user id nothing is sent and a warning shows; success stores the returned user in state and storage and clears preview and file; failure changes only the notice |
| Profile.ProfileView.Remove | src/components/Profile.jsx:85-97 | the remove icon (line 149) clears file and preview before requesting; success stores the returned user; failure only shows an error |
| Profile.ProfileView.Logout | src/components/Profile.jsx:99-104 | storage loses the session as `ClearSession` says, the screen goes to login, and no session remains |
| Doctors.DoctorImageUrl | src/components/Doctors.jsx:114-118 | the picture URL is never empty, and with a stored path it starts with the API base and is at least as long as base and path together |
| Doctors.DoctorImageUrlSpec | src/components/Doctors.jsx:114-118 | a stored path gives base, exactly one '/', then the path without its own leading '/'; no path gives "/default-profile.jpg" |
| Doctors.ImageUrlsAgree | src/components/Doctors.jsx:116 | the doctor card and the profile screen build the same URL for the same host and path |
| Doctors.DoctorsView.constructor | src/components/Doctors.jsx:22-27 | the screen starts loading with no doctors, the dialog closed and no date |
| Doctors.DoctorsView.LoadDoctors | src/components/Doctors.jsx:29-42 | a success stores the fetched `doctors` field as it is, a missing one included; a failure keeps the list; loading ends either way |
| Doctors.DoctorsView.OpenDialog | src/components/Doctors.jsx:46-57 | with no stored user an error shows and the dialog and selection are unchanged; otherwise the doctor is selected and the dialog opens |
| Doctors.DoctorsView.CloseDialog | src/components/Doctors.jsx:59-63 | the selection and the date are reset and the dialog is closed |
| Doctors.DoctorsView.SetDate | src/components/Doctors.jsx:191 | the date field holds the picked date |
| Doctors.DoctorsView.Submit | src/components/Doctors.jsx:65-94 | no date, or no stored user, sends no booking; otherwise one booking for the selected doctor and the stored user is sent; success closes and resets the dialog, failure leaves it open |

## Left out

- The socket.io connection itself is not modelled: connecting, disconnecting, the module-level `socket` shared between effects, and the order in which effects run. A stale history response can land after a contact switch. Only the emits are kept, as the `outbox`.
- The `useEffect` triggers are not modelled. The methods are the effects' bodies, called in the order the screen would call them.
- HTTP calls themselves are left out. Each handler is modelled once its request has settled, with the outcome as a `Fetch` parameter. The chat send is the exception: it is split into `Send`, which starts the post, and `SendSettled`, which runs when it settles, because other events can happen in between.
- Chat send: the outcome of the storage post only decides a console line, so it is not a parameter.
- Appointments `total`: `parseFloat` and the sum over the bill fields are floating point. The bill request omits it.
- Dates: `new Date(...)` parsing, `toLocaleTimeString` and `toLocaleString` depend on locale and clock. Times are opaque strings. An appointment date is an integer timestamp, or `None` for a date that does not parse (an Invalid Date, which compares false with every time); which texts parse is not modelled.
- Text.ToLower: lowers ASCII letters only, not the full Unicode case mapping of `toLowerCase`. This matters only for roles written with non-ASCII letters.
- Text.NatToString: writes the exact digits of every whole number, which is what `toString` writes only below 2^53. Above 2^53 a double is rounded before it is written (2^60 prints as "1152921504606847000"), and from 10^21 on `toString` uses exponent form ("1e+21"); neither is modelled.
- ForgotPassword.PasswordWizard.SubmitEmail: a numeric OTP is taken to be a non-negative whole number below 2^53 (`SafeWhole`), which a double holds exactly. Negative or fractional numbers, whose `toString` has a sign or a point, numbers above 2^53, which are rounded, and numbers from 10^21 on, which are written with an exponent, are not modelled.
- Doctors.DoctorsView.LoadDoctors: a list stored as `None` is where the render's `doctors.map` (line 109) throws; the render itself is not modelled.
- `JSON.parse` and `JSON.stringify` are foreign. A backend response without a `user` field, which the source would store as the text "undefined", is not modelled.
- The ForgotPassword handlers require the step whose form renders them (lines 91, 112, 132). The case of double submission while a request is in flight is not modelled.
- The `required` form attributes, rendering, snackbar timing, the `setTimeout` navigation and `URL.createObjectURL` are left out. URL creation is a parameter; navigation is a flag.
- Appointments: which action buttons a section shows (lines 180-217) is rendering and is not modelled.
- `Send` in both chat screens requires the participants that the screen needs before it renders its send button (`DoctorChat.jsx:184`, `Chat.jsx:90-92`).
- `ProfileView.Remove` requires a user, which the screen needs before it renders the remove icon (`Profile.jsx:109`).
- `DoctorsView.Submit` requires the open dialog, which is where its button is, and the dialog is open only with a doctor selected.
- `src/App.jsx` (the session poll and routes), `Login.jsx`, `Signup.jsx`, `DoctorDescription.jsx` and `vite.config.js` are not part of this model.
