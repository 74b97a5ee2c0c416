/** The profile screen: the session check on mount, the avatar source, the
    image upload and removal, and logout. The browser's `localStorage` is a
    map from keys to strings. */
module Profile {
  import opened Common

  /** The stored user. An empty `id` or `profileImg` stands for a missing
      field (both are falsy). */
  datatype User = User(id: string, fullname: string, profileImg: string)

  /** A file chosen in the file input. */
  datatype File = File(name: string)

  /** A path that starts with '/' is kept; any other gets one '/' in front. */
  function LeadingSlash(path: string): (r: string)
    ensures |r| > 0 && r[0] == '/'
    ensures |path| > 0 && path[0] == '/' ==> r == path
    ensures !(|path| > 0 && path[0] == '/') ==> r[1..] == path
  {
    if |path| > 0 && path[0] == '/' then path else "/" + path
  }

  /** The avatar source: a preview first, then the stored image on the API
      host, then the default picture. */
  function ImgSrc(preview: string, user: Option<User>, apiHost: string): (r: string)
    ensures r != ""
    ensures preview != "" ==> r == preview
  {
    if preview != "" then preview
    else if user.Some? && user.value.profileImg != "" then apiHost + LeadingSlash(user.value.profileImg)
    else "/default-avatar.png"
  }

  /** A preview always wins. Without one, a stored image gives the host, one
      '/', and the stored path without its own leading '/'; with no image
      either, the default picture is shown. */
  lemma ImgSrcSpec(preview: string, user: Option<User>, apiHost: string)
    ensures preview != "" ==> ImgSrc(preview, user, apiHost) == preview
    ensures preview == "" && user.Some? && user.value.profileImg != "" ==>
      var r, img, n := ImgSrc(preview, user, apiHost), user.value.profileImg, |apiHost|;
      |r| > n && r[..n] == apiHost && r[n] == '/' &&
      (if img[0] == '/' then r[n..] == img else r[n + 1..] == img)
    ensures preview == "" && (user.None? || user.value.profileImg == "") ==>
      ImgSrc(preview, user, apiHost) == "/default-avatar.png"
  {
    if preview == "" && user.Some? && user.value.profileImg != "" {
      var r, img, n := ImgSrc(preview, user, apiHost), user.value.profileImg, |apiHost|;
      assert r == apiHost + LeadingSlash(img);
      assert r[n..] == LeadingSlash(img);
    }
  }

  /** Logging out: the login flag becomes "false", the user and role entries
      are removed, and every other entry stays. */
  function ClearSession(storage: map<string, string>): (r: map<string, string>)
    ensures "isLoggedIn" in r && r["isLoggedIn"] == "false"
    ensures "user" !in r && "role" !in r
    ensures forall k :: k in storage && k != "isLoggedIn" && k != "user" && k != "role" ==>
      k in r && r[k] == storage[k]
    ensures forall k :: k in r ==> k in storage || k == "isLoggedIn"
  {
    storage["isLoggedIn" := "false"] - {"user", "role"}
  }

  /** The mount check: the login flag reads "true" and a non-empty user entry
      is stored. */
  predicate HasSession(storage: map<string, string>): (r: bool)
    ensures r ==> "isLoggedIn" in storage && "user" in storage
    ensures "isLoggedIn" in storage && storage["isLoggedIn"] != "true" ==> !r
  {
    "isLoggedIn" in storage && storage["isLoggedIn"] == "true" &&
    "user" in storage && storage["user"] != ""
  }

  /** After logout the profile screen no longer finds a session. */
  lemma LogoutEndsSession(storage: map<string, string>)
    ensures !HasSession(ClearSession(storage))
  {
  }

  /** The state of the profile screen and of the storage it reads and
      writes. */
  class ProfileView {
    const apiHost: string
    var storage: map<string, string>
    var userData: Option<User>
    var role: Option<string>
    var selectedFile: Option<File>
    var preview: string
    var snack: Option<Snack>
    var redirectedToLogin: bool

    constructor (apiHost: string, storage: map<string, string>)
      ensures this.apiHost == apiHost && this.storage == storage
      ensures userData == None && role == Some("") && selectedFile == None && preview == ""
      ensures snack == None && !redirectedToLogin
    {
      this.apiHost, this.storage := apiHost, storage;
      userData, role, selectedFile, preview := None, Some(""), None, "";
      snack, redirectedToLogin := None, false;
    }

    /** The image the avatar shows now. */
    function ImageSource(): (r: string)
      reads this
      ensures r != ""
      ensures preview != "" ==> r == preview
      ensures preview == "" && userData.None? ==> r == "/default-avatar.png"
    {
      ImgSrc(preview, userData, apiHost)
    }

    /** The mount effect: without a session the screen goes to the login page;
        with one it shows the stored user (`decoded` is what `JSON.parse` makes
        of the stored entry) and the stored role. */
    method Mount(decoded: User)
      modifies this`userData, this`role, this`preview, this`redirectedToLogin
      ensures !HasSession(storage) ==>
        redirectedToLogin && userData == old(userData) && role == old(role) && preview == old(preview)
      ensures HasSession(storage) ==>
        redirectedToLogin == old(redirectedToLogin) && userData == Some(decoded) &&
        role == (if "role" in storage then Some(storage["role"]) else None) && preview == ""
    {
      var isLoggedIn := "isLoggedIn" in storage && storage["isLoggedIn"] == "true";
      if !isLoggedIn || "user" !in storage || storage["user"] == "" {
        redirectedToLogin := true;
      } else {
        userData := Some(decoded);
        role := if "role" in storage then Some(storage["role"]) else None;
        preview := "";
      }
    }

    /** Choosing in the file input: the choice is kept, and a chosen file
        becomes the preview (`objectUrl` is the URL the browser made for it);
        choosing nothing leaves the preview. */
    method ChooseFile(file: Option<File>, objectUrl: string)
      modifies this`selectedFile, this`preview
      ensures selectedFile == file
      ensures file.Some? ==> preview == objectUrl
      ensures file.None? ==> preview == old(preview)
    {
      selectedFile := file;
      if file.Some? {
        preview := objectUrl;
      }
    }

    /** Uploading the chosen file: without a file or a user id nothing is
        sent and a warning is shown. A success stores the returned user
        (`userJson` is its `JSON.stringify` text) and clears the preview and
        the choice; a failure changes only the notice. */
    method Upload(res: Fetch<User>, userJson: string) returns (requested: bool)
      modifies this`userData, this`storage, this`preview, this`selectedFile, this`snack
      ensures requested <==> old(selectedFile).Some? && old(userData).Some? && old(userData).value.id != ""
      ensures !requested ==>
        snack == Some(Snack("Missing image or user ID", Warning)) &&
        userData == old(userData) && storage == old(storage) && preview == old(preview) &&
        selectedFile == old(selectedFile)
      ensures requested && res.Ok? ==>
        userData == Some(res.data) && storage == old(storage)["user" := userJson] &&
        preview == "" && selectedFile == None &&
        snack == Some(Snack("Profile image updated", Success))
      ensures requested && res.Err? ==>
        userData == old(userData) && storage == old(storage) && preview == old(preview) &&
        selectedFile == old(selectedFile) && snack == Some(Snack("Upload failed", Error))
    {
      if selectedFile.None? || userData.None? || userData.value.id == "" {
        snack := Some(Snack("Missing image or user ID", Warning));
        return false;
      }
      requested := true;
      match res {
        case Ok(updated) =>
          userData := Some(updated);
          storage := storage["user" := userJson];
          preview := "";
          selectedFile := None;
          snack := Some(Snack("Profile image updated", Success));
        case Err(_) =>
          snack := Some(Snack("Upload failed", Error));
      }
    }

    /** The remove icon: the choice and the preview are cleared at once, then
        the removal is requested; a success stores the returned user. */
    method Remove(res: Fetch<User>, userJson: string)
      requires userData.Some?
      modifies this`userData, this`storage, this`preview, this`selectedFile, this`snack
      ensures selectedFile == None && preview == ""
      ensures res.Ok? ==>
        userData == Some(res.data) && storage == old(storage)["user" := userJson] &&
        snack == Some(Snack("Profile image removed", Info))
      ensures res.Err? ==>
        userData == old(userData) && storage == old(storage) &&
        snack == Some(Snack("Failed to remove image", Error))
    {
      selectedFile := None;
      preview := "";
      match res {
        case Ok(updated) =>
          userData := Some(updated);
          storage := storage["user" := userJson];
          preview := "";
          snack := Some(Snack("Profile image removed", Info));
        case Err(_) =>
          snack := Some(Snack("Failed to remove image", Error));
      }
    }

    /** Logging out clears the session entries and goes to the login page. */
    method Logout()
      modifies this`storage, this`redirectedToLogin
      ensures storage == ClearSession(old(storage)) && redirectedToLogin
      ensures !HasSession(storage)
    {
      storage := ClearSession(storage);
      redirectedToLogin := true;
      LogoutEndsSession(old(storage));
    }
  }
}
