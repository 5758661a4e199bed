/** The credentials sign-in: `authorize` and the two callbacks that carry
    the user id from the sign-in into the JWT and from the JWT into the
    session. */
module Auth {
  import opened Js
  import opened Strings

  datatype Credentials = Credentials(email: Option<string>, password: Option<string>)

  datatype User = User(id: string, email: string, name: string)

  /** The claims of a JWT, by name. */
  type Token = map<string, string>

  /** A session as the client sees it. A user field may be null or
      undefined, hence the optional values. */
  datatype Session = Session(fields: map<string, string>, user: Option<map<string, Option<string>>>)

  /** The display name derived from an email: the text before its first
      '@', or the whole email when it has none. */
  function EmailPrefix(email: string): (name: string)
    ensures name <= email
    ensures '@' !in name
    ensures '@' in email ==> email[|name|] == '@'
    ensures '@' !in email ==> name == email
  {
    Before(email, '@')
  }

  /** `authorize`: any non-empty email and password are accepted. */
  function Authorize(credentials: Option<Credentials>): (r: Option<User>)
    ensures r.Some? <==> && credentials.Some?
                         && Truthy(credentials.value.email)
                         && Truthy(credentials.value.password)
    ensures r.Some? ==> && r.value.id == "1"
                        && r.value.email == credentials.value.email.value
                        && r.value.name == EmailPrefix(r.value.email)
  {
    match credentials
    case None => None
    case Some(c) =>
      if Truthy(c.email) && Truthy(c.password) then
        Some(User("1", c.email.value, EmailPrefix(c.email.value)))
      else
        None
  }

  /** The `jwt` callback: on sign-in the token gains the user's id. */
  function JwtCallback(token: Token, user: Option<User>): (r: Token)
    ensures user.None? ==> r == token
    ensures user.Some? ==> && r.Keys == token.Keys + {"id"}
                           && r["id"] == user.value.id
                           && forall k | k in token && k != "id" :: r[k] == token[k]
  {
    match user
    case None => token
    case Some(u) => token["id" := u.id]
  }

  /** The keys of the session's user object; a missing user spreads as `{}`. */
  function UserKeys(session: Session): set<string> {
    if session.user.Some? then session.user.value.Keys else {}
  }

  /** The `session` callback: the session and its user are copied, and the
      user's id is taken from the token (undefined when the token has none). */
  function SessionCallback(session: Session, token: Token): (r: Session)
    ensures r.fields == session.fields
    ensures r.user.Some?
    ensures r.user.value.Keys == UserKeys(session) + {"id"}
    ensures r.user.value["id"] == (if "id" in token then Some(token["id"]) else None)
    ensures session.user.Some? ==>
              forall k | k in session.user.value && k != "id" :: r.user.value[k] == session.user.value[k]
  {
    var base := if session.user.Some? then session.user.value else map[];
    var id := if "id" in token then Some(token["id"]) else None;
    Session(session.fields, Some(base["id" := id]))
  }

  /** After a successful sign-in the session's user carries id "1", and the
      other user fields the session already had are kept. */
  lemma SignInExposesUserId(credentials: Option<Credentials>, token: Token, session: Session)
    requires Authorize(credentials).Some?
    ensures var s := SessionCallback(session, JwtCallback(token, Authorize(credentials)));
            && s.user.value["id"] == Some("1")
            && s.fields == session.fields
            && (session.user.Some? ==>
                  forall k | k in session.user.value && k != "id" :: s.user.value[k] == session.user.value[k])
  {
  }

  /** With an '@' present, the email is the derived name, '@', and the rest. */
  lemma EmailPrefixSplits(email: string)
    requires '@' in email
    ensures email == EmailPrefix(email) + "@" + After(email, '@')
  {
  }

  /** Sample names: "ab@c.d" signs in as "ab", "@x" as the empty name. */
  lemma EmailPrefixSamples()
    ensures EmailPrefix("ab@c.d") == "ab"
    ensures EmailPrefix("@x") == ""
  {
  }
}
