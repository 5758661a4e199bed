/** The profile page: the session gate, the choice between the loading
    view, nothing and the page, and the form rules (editing a field,
    saving, toggling edit mode, accepting a profile picture). */
module ProfilePage {
  import opened Js
  import opened Strings
  import opened SessionGate
  import Utils

  datatype Profile = Profile(
    name: string,
    email: string,
    phone: string,
    location: string,
    bio: string,
    joinDate: string,
    profileImage: string)

  const Blank := Profile("", "", "", "", "", "", "")

  datatype PageState = PageState(user: Profile, formData: Profile, isEditing: bool, isLoading: bool)

  /** Before the effect has run: blank profile, not editing, loading. */
  const InitialState := PageState(Blank, Blank, false, true)

  const DefaultPhone := "+8801887736907"
  const DefaultLocation := "Bangladesh"
  const DefaultBio := "Passionate web developer and UI/UX designer with expertise in modern web technologies."

  /** The profile shown for an admitted session; `today` is the formatted
      current date. */
  function SessionProfile(name: string, email: string, today: string): Profile {
    Profile(name, email, DefaultPhone, DefaultLocation, DefaultBio, today, "")
  }

  /** The effect's new state and the router pushes it issued. */
  datatype EffectResult = EffectResult(state: PageState, pushes: seq<string>)

  /** The auth effect. */
  function AuthEffect(st: PageState, status: AuthStatus, session: Option<Session>, today: string): (r: EffectResult)
    ensures status == Loading ==> r == EffectResult(st, [])
    ensures status != Loading && session.None? ==> r == EffectResult(st, [LoginPath])
    ensures status != Loading && session.Some? ==>
              && r.pushes == []
              && !r.state.isLoading
              && r.state.isEditing == st.isEditing
              && r.state.formData == r.state.user
              && r.state.user.name == Or(UserName(session.value), "User")
              && r.state.user.email == Or(UserEmail(session.value), "")
              && r.state.user == SessionProfile(r.state.user.name, r.state.user.email, today)
  {
    var g := Decide(status, session);
    match g
    case Admit(name, email) =>
      var d := SessionProfile(name, email, today);
      EffectResult(st.(user := d, formData := d, isLoading := false), Pushes(g))
    case _ => EffectResult(st, Pushes(g))
  }

  /** The view rendered for a state. */
  function Render(st: PageState, status: AuthStatus, session: Option<Session>): (v: View)
    ensures v == LoadingView <==> status == Loading || st.isLoading
    ensures v == NothingView <==> status != Loading && !st.isLoading && session.None?
  {
    if status == Loading || st.isLoading then LoadingView
    else if session.None? then NothingView
    else PageView
  }

  /** Without a session the page redirects, but since only the session path
      clears `isLoading` it keeps showing the loading view, never nothing. */
  lemma NoSessionKeepsLoading(status: AuthStatus, today: string)
    requires status != Loading
    ensures var r := AuthEffect(InitialState, status, None, today);
            && r.pushes == [LoginPath]
            && Render(r.state, status, None) == LoadingView
  {
  }

  /** With a session, one run of the effect takes the page from the loading
      view to the profile. */
  lemma SessionShowsPage(status: AuthStatus, session: Session, today: string)
    requires status != Loading
    ensures var r := AuthEffect(InitialState, status, Some(session), today);
            && Render(InitialState, status, Some(session)) == LoadingView
            && Render(r.state, status, Some(session)) == PageView
  {
  }

  /** The inputs of the form, by their `name` attribute. */
  datatype Field = Name | Email | Phone | Location | Bio

  function Get(p: Profile, f: Field): string {
    match f
    case Name => p.name
    case Email => p.email
    case Phone => p.phone
    case Location => p.location
    case Bio => p.bio
  }

  /** `handleChange`: the named form field takes the input's value. */
  function HandleChange(st: PageState, f: Field, value: string): (r: PageState)
    ensures Get(r.formData, f) == value
    ensures forall g: Field | g != f :: Get(r.formData, g) == Get(st.formData, g)
    ensures r.formData.joinDate == st.formData.joinDate
    ensures r.formData.profileImage == st.formData.profileImage
    ensures r == st.(formData := r.formData)
  {
    var p := st.formData;
    var q := match f
      case Name => p.(name := value)
      case Email => p.(email := value)
      case Phone => p.(phone := value)
      case Location => p.(location := value)
      case Bio => p.(bio := value);
    st.(formData := q)
  }

  /** `handleSave`: the edited form becomes the profile and editing ends. */
  function HandleSave(st: PageState): (r: PageState)
    ensures r.user == st.formData && r.formData == st.formData
    ensures !r.isEditing && r.isLoading == st.isLoading
  {
    st.(user := st.formData, isEditing := false)
  }

  /** The edit button. */
  function ToggleEditing(st: PageState): (r: PageState)
    ensures r.isEditing != st.isEditing
    ensures r == st.(isEditing := r.isEditing)
  {
    st.(isEditing := !st.isEditing)
  }

  /** A chosen file: its MIME type and its size in bytes. */
  datatype ImageFile = ImageFile(mimeType: string, size: nat)

  const MaxImageBytes: nat := 5 * 1024 * 1024

  /** `handleImageUpload`. `file` is the first selected file, if any;
      `url` is the object URL the browser creates for it. */
  function HandleImageUpload(st: PageState, file: Option<ImageFile>, url: string): (r: PageState)
    ensures r != st ==> file.Some?
    ensures file.Some? && StartsWith(file.value.mimeType, "image/") && file.value.size <= MaxImageBytes
            ==> r == st.(user := st.user.(profileImage := url), formData := st.formData.(profileImage := url))
    ensures file.None? || !StartsWith(file.value.mimeType, "image/") || file.value.size > MaxImageBytes
            ==> r == st
  {
    match file
    case None => st
    case Some(f) =>
      if !StartsWith(f.mimeType, "image/") then st
      else if f.size > MaxImageBytes then st
      else st.(user := st.user.(profileImage := url), formData := st.formData.(profileImage := url))
  }

  /** Editing then saving a field updates exactly that field of the profile,
      provided the form started out equal to the profile. */
  lemma EditThenSave(st: PageState, f: Field, value: string)
    requires st.formData == st.user
    ensures var saved := HandleSave(HandleChange(st, f, value));
            && Get(saved.user, f) == value
            && (forall g: Field | g != f :: Get(saved.user, g) == Get(st.user, g))
            && saved.user.profileImage == st.user.profileImage
            && !saved.isEditing
  {
  }

  /** The default phone number shown on the profile is a valid Bangladeshi
      number. */
  lemma DefaultPhoneIsValid()
    ensures Utils.ValidateBangladeshiPhone(DefaultPhone)
  {
    Utils.ValidateBangladeshiPhoneCharacterisation(DefaultPhone);
    assert DefaultPhone[..5] == "+8801";
  }

  /** An accepted picture survives a later save, since it was put into the
      form as well as the profile. */
  lemma UploadSurvivesSave(st: PageState, file: ImageFile, url: string)
    requires StartsWith(file.mimeType, "image/") && file.size <= MaxImageBytes
    ensures HandleSave(HandleImageUpload(st, Some(file), url)).user.profileImage == url
  {
  }

  /** Pressing the edit button twice leaves the page as it was. */
  lemma ToggleTwice(st: PageState)
    ensures ToggleEditing(ToggleEditing(st)) == st
  {
  }
}
