/** The account-setup screen as a value: the three input fields with their
    errors, the loading flag and the two one-shot outputs, and one function
    per step of the setup flow giving the screen after that step. The class
    in module Setup performs the same steps in place and is proved to agree
    with these functions. */
module SetupForm {
  import opened Optional
  import opened JavaStrings
  import opened Failures

  /** Where the setup screens are sent next. */
  datatype Target = EnterPassword | EnterUrl | SelectAccounts | Lttrs

  /** What the flow uses of a parsed okhttp `HttpUrl`: its scheme, its host
      and its canonical text (`toString`). */
  datatype HttpUrl = HttpUrl(scheme: string, host: string, canonical: string)

  type AccountId = string

  /** A JMAP account as a session lists it (RFC 8620, section 2). */
  datatype Account = Account(name: string, isPersonal: bool, isReadOnly: bool)

  /** What `processAccounts` reads from a fetched session: the accounts with
      the mail capability, and the primary mail account (null when the
      server names none). */
  datatype Session = Session(mailAccounts: map<AccountId, Account>, primaryMailAccount: Option<AccountId>)

  /** How a session fetch ended. */
  datatype FetchOutcome = Fetched(session: Session) | Failed(cause: Throwable)

  /** The arguments a `JmapClient` is built with; no session resource means
      the client discovers it from the address. */
  datatype SessionRequest = SessionRequest(username: string, password: string, sessionResource: Option<HttpUrl>)

  /** The arguments of `insertAccountsRefreshMailboxes`. */
  datatype InsertRequest = InsertRequest(
    emailAddress: string,
    password: string,
    sessionResource: Option<HttpUrl>,
    primaryAccountId: Option<AccountId>,
    accounts: map<AccountId, Account>)

  /** What a submission did: it was rejected by local validation, it started
      a session fetch, or an IllegalArgumentException escaped it before a
      fetch could start. */
  datatype Submission = NoFetch | FetchStarted(request: SessionRequest) | FetchThrew

  /** `getHttpSessionResource`: no override when the field is null or empty,
      the parsed URL otherwise, or the IllegalArgumentException `HttpUrl.get`
      throws for text it cannot parse. */
  datatype ResourceLookup = NoOverride | Override(url: HttpUrl) | Malformed

  /** The three input fields. */
  datatype Field = EmailAddress | Password | SessionResource

  /** The screen state. `redirection` and `warningMessage` hold the last
      value posted. An `...Assigned` flag records whether its field has been
      assigned at all: the deduplicating observer that clears a field's
      error passes on the first assignment whatever its value, and after
      that only changes. */
  datatype Form = Form(
    emailAddress: Option<string>,
    emailAddressError: Option<Message>,
    emailAddressAssigned: bool,
    password: Option<string>,
    passwordError: Option<Message>,
    passwordAssigned: bool,
    sessionResource: Option<string>,
    sessionResourceError: Option<Message>,
    sessionResourceAssigned: bool,
    loading: bool,
    redirection: Option<Target>,
    warningMessage: Option<Message>)
  {
    function Value(field: Field): Option<string>
    {
      match field
      case EmailAddress => emailAddress
      case Password => password
      case SessionResource => sessionResource
    }

    function Error(field: Field): Option<Message>
    {
      match field
      case EmailAddress => emailAddressError
      case Password => passwordError
      case SessionResource => sessionResourceError
    }

    function Assigned(field: Field): bool
    {
      match field
      case EmailAddress => emailAddressAssigned
      case Password => passwordAssigned
      case SessionResource => sessionResourceAssigned
    }
  }

  /** A freshly created screen: nothing entered, nothing posted. */
  const Initial := Form(None, None, false, None, None, false, None, None, false, false, None, None)

  /** `t` holds the same input values as `f`. */
  predicate SameInputs(f: Form, t: Form)
  {
    && t.emailAddress == f.emailAddress && t.emailAddressAssigned == f.emailAddressAssigned
    && t.password == f.password && t.passwordAssigned == f.passwordAssigned
    && t.sessionResource == f.sessionResource && t.sessionResourceAssigned == f.sessionResourceAssigned
  }

  /** `t` holds the same value, error and assigned flag as `f` for every
      input field other than `field`. */
  predicate AgreeExcept(f: Form, t: Form, field: Field)
  {
    && (field != EmailAddress ==>
          t.emailAddress == f.emailAddress && t.emailAddressError == f.emailAddressError
          && t.emailAddressAssigned == f.emailAddressAssigned)
    && (field != Password ==>
          t.password == f.password && t.passwordError == f.passwordError
          && t.passwordAssigned == f.passwordAssigned)
    && (field != SessionResource ==>
          t.sessionResource == f.sessionResource && t.sessionResourceError == f.sessionResourceError
          && t.sessionResourceAssigned == f.sessionResourceAssigned)
  }

  /** Assigning a field, followed by its error-clearing observer: the field's
      error is cleared when the value changes (or on its first assignment),
      and no other error, value or output is touched. */
  function Assign(f: Form, field: Field, v: Option<string>): (t: Form)
    ensures t.Value(field) == v && t.Assigned(field)
    ensures f.Value(field) != v || !f.Assigned(field) ==> t.Error(field).None?
    ensures f.Value(field) == v && f.Assigned(field) ==> t == f
    ensures AgreeExcept(f, t, field)
    ensures t.loading == f.loading && t.redirection == f.redirection && t.warningMessage == f.warningMessage
  {
    var changed := !f.Assigned(field) || f.Value(field) != v;
    match field
    case EmailAddress =>
      f.(emailAddress := v, emailAddressAssigned := true,
         emailAddressError := if changed then None else f.emailAddressError)
    case Password =>
      f.(password := v, passwordAssigned := true,
         passwordError := if changed then None else f.passwordError)
    case SessionResource =>
      f.(sessionResource := v, sessionResourceAssigned := true,
         sessionResourceError := if changed then None else f.sessionResourceError)
  }

  /** `getHttpSessionResource`. */
  function GetHttpSessionResource(sessionResource: Option<string>, parseUrl: string -> Option<HttpUrl>): (r: ResourceLookup)
    ensures r.NoOverride? <==> NullToEmpty(sessionResource) == ""
    ensures r.Malformed? <==> NullToEmpty(sessionResource) != "" && parseUrl(NullToEmpty(sessionResource)).None?
    ensures r.Override? ==> parseUrl(NullToEmpty(sessionResource)) == Some(r.url)
  {
    match EmptyToNull(sessionResource)
    case None => NoOverride
    case Some(text) =>
      match parseUrl(text)
      case None => Malformed
      case Some(url) => Override(url)
  }

  /** `getSession`: the request for the current fields, or nothing when the
      session resource text cannot be parsed (the source throws). */
  function GetSession(
    emailAddress: Option<string>, password: Option<string>, sessionResource: Option<string>,
    parseUrl: string -> Option<HttpUrl>): (r: Option<SessionRequest>)
    ensures r.None? <==> GetHttpSessionResource(sessionResource, parseUrl).Malformed?
    ensures r.Some? ==> r.value.username == NullToEmpty(emailAddress) && r.value.password == NullToEmpty(password)
    ensures r.Some? ==> (r.value.sessionResource.None? <==> NullToEmpty(sessionResource) == "")
    ensures r.Some? && r.value.sessionResource.Some? ==>
      parseUrl(NullToEmpty(sessionResource)) == r.value.sessionResource
  {
    match GetHttpSessionResource(sessionResource, parseUrl)
    case Malformed => None
    case NoOverride => Some(SessionRequest(NullToEmpty(emailAddress), NullToEmpty(password), None))
    case Override(url) => Some(SessionRequest(NullToEmpty(emailAddress), NullToEmpty(password), Some(url)))
  }

  /** `enterEmailAddress` up to the start of the fetch. */
  function SubmitEmailAddress(f: Form, isValidEmail: string -> bool, parseUrl: string -> Option<HttpUrl>): (Form, Submission)
  {
    var f1 := Assign(Assign(f, Password, None), SessionResource, None);
    var email := Trim(NullToEmpty(f1.emailAddress));
    if isValidEmail(email) then
      var f2 := Assign(f1.(loading := true, emailAddressError := None), EmailAddress, Some(email));
      (f2, FetchStarted(GetSession(f2.emailAddress, f2.password, f2.sessionResource, parseUrl).value))
    else if email == "" then
      (f1.(emailAddressError := Some(EnterAnEmailAddress)), NoFetch)
    else
      (f1.(emailAddressError := Some(EnterAValidEmailAddress)), NoFetch)
  }

  /** What submitting an address does: the password and the session
      resource are cleared before anything is validated; the address is
      trimmed, and only a valid trimmed address is written back and
      fetched for. */
  lemma SubmitEmailAddressValidates(f: Form, isValidEmail: string -> bool, parseUrl: string -> Option<HttpUrl>)
    ensures var (t, submission) := SubmitEmailAddress(f, isValidEmail, parseUrl);
      && t.password.None? && t.sessionResource.None?
      && t.passwordError == Assign(f, Password, None).passwordError
      && t.sessionResourceError == Assign(f, SessionResource, None).sessionResourceError
      && t.redirection == f.redirection && t.warningMessage == f.warningMessage
    ensures var (t, submission) := SubmitEmailAddress(f, isValidEmail, parseUrl);
      var email := Trim(NullToEmpty(f.emailAddress));
      if isValidEmail(email) then
        && submission == FetchStarted(SessionRequest(email, "", None))
        && t.loading && t.emailAddress == Some(email) && t.emailAddressError.None?
      else
        && submission == NoFetch
        && t.loading == f.loading && t.emailAddress == f.emailAddress
        && t.emailAddressError == Some(if email == "" then EnterAnEmailAddress else EnterAValidEmailAddress)
  {
  }

  /** `enterPassword` up to the start of the fetch. The password is used as
      entered (it is not trimmed); an empty one is rejected. Building the
      client throws when the stored session resource cannot be parsed. */
  function SubmitPassword(f: Form, parseUrl: string -> Option<HttpUrl>): (r: (Form, Submission))
    ensures r.1.NoFetch? <==> NullToEmpty(f.password) == ""
    ensures r.1.NoFetch? ==> r.0 == f.(passwordError := Some(EnterAPassword))
    ensures !r.1.NoFetch? ==> r.0 == f.(loading := true, passwordError := None)
    ensures r.1.FetchThrew? <==>
      NullToEmpty(f.password) != "" && GetHttpSessionResource(f.sessionResource, parseUrl).Malformed?
    ensures r.1.FetchStarted? ==>
      && r.1.request.username == NullToEmpty(f.emailAddress)
      && r.1.request.password == NullToEmpty(f.password)
      && (r.1.request.sessionResource.None? <==> NullToEmpty(f.sessionResource) == "")
      && (r.1.request.sessionResource.Some? ==>
            r.1.request.sessionResource == parseUrl(NullToEmpty(f.sessionResource)))
  {
    var password := NullToEmpty(f.password);
    if password == "" then
      (f.(passwordError := Some(EnterAPassword)), NoFetch)
    else
      var f1 := f.(loading := true, passwordError := None);
      match GetSession(f1.emailAddress, f1.password, f1.sessionResource, parseUrl)
      case None => (f1, FetchThrew)
      case Some(request) => (f1, FetchStarted(request))
  }

  /** `enterSessionResource` up to the start of the fetch. Text that does not
      parse, and a plain `http` URL, are rejected without touching `loading`;
      otherwise the canonical URL replaces the text. The client is built
      from the text as entered: the canonical form is posted and lands only
      after the submission returns. The address and password are kept. */
  function SubmitSessionResource(f: Form, parseUrl: string -> Option<HttpUrl>): (r: (Form, Submission))
    ensures var parsed := parseUrl(NullToEmpty(f.sessionResource));
      && (parsed.None? ==> r == (f.(sessionResourceError := Some(EnterAValidUrl)), NoFetch))
      && (parsed.Some? && parsed.value.scheme == "http" ==>
            r == (f.(sessionResourceError := Some(EnterASecureUrl)), NoFetch))
      && (r.1.FetchStarted? <==> parsed.Some? && parsed.value.scheme != "http")
      && (r.1.FetchStarted? ==>
            && r.0.loading
            && r.0.sessionResource == Some(parsed.value.canonical)
            && r.0.sessionResourceError.None?
            && (NullToEmpty(f.sessionResource) != "" ==> r.1.request.sessionResource == parsed))
    ensures !r.1.FetchThrew?
    ensures r.1.FetchStarted? ==>
      r.1.request.username == NullToEmpty(f.emailAddress) && r.1.request.password == NullToEmpty(f.password)
    ensures r.0.emailAddress == f.emailAddress && r.0.password == f.password
    ensures r.0.emailAddressError == f.emailAddressError && r.0.passwordError == f.passwordError
    ensures r.0.redirection == f.redirection && r.0.warningMessage == f.warningMessage
  {
    match parseUrl(NullToEmpty(f.sessionResource))
    case None => (f.(sessionResourceError := Some(EnterAValidUrl)), NoFetch)
    case Some(url) =>
      if url.scheme == "http" then
        (f.(sessionResourceError := Some(EnterASecureUrl)), NoFetch)
      else
        var request := GetSession(f.emailAddress, f.password, f.sessionResource, parseUrl).value;
        var f1 := Assign(f.(loading := true), SessionResource, Some(url.canonical));
        (f1.(sessionResourceError := None), FetchStarted(request))
  }

  /** `reportUnableToFetchSession`: posts the fetch-failure warning, if any. */
  function FetchProblemReported(f: Form, cause: Throwable): (t: Form)
    ensures cause.kind.InterruptedException? ==> t == f
    ensures !cause.kind.InterruptedException? ==>
      t == f.(warningMessage := FetchFailureWarning(cause)) && t.warningMessage.Some?
  {
    match FetchFailureWarning(cause)
    case None => f
    case Some(w) => f.(warningMessage := Some(w))
  }

  /** The failure callback of `enterEmailAddress`. */
  function EmailAddressFailure(f: Form, cause: Throwable, networkAvailable: bool): (t: Form)
    ensures !t.loading && SameInputs(f, t)
    ensures Classify(cause) == Unauthorized ==>
      t == f.(loading := false, passwordError := None, redirection := Some(EnterPassword))
    ensures Classify(cause) == UnresolvedHost && networkAvailable ==>
      t == f.(loading := false, sessionResourceError := None, redirection := Some(EnterUrl))
    ensures Classify(cause) == UnresolvedHost && !networkAvailable ==>
      t == f.(loading := false, emailAddressError := Some(NoNetworkConnection))
    ensures Classify(cause) == EndpointUnreachable ==>
      t == f.(loading := false, sessionResourceError := None, redirection := Some(EnterUrl))
    ensures Classify(cause) == Unknown ==> t == FetchProblemReported(f.(loading := false), cause)
  {
    var f := f.(loading := false);
    if cause.kind.UnauthorizedException? then
      f.(passwordError := None, redirection := Some(EnterPassword))
    else if cause.kind.UnknownHostException? then
      if networkAvailable then
        f.(sessionResourceError := None, redirection := Some(EnterUrl))
      else
        f.(emailAddressError := Some(NoNetworkConnection))
    else if IsEndpointProblem(cause) then
      f.(sessionResourceError := None, redirection := Some(EnterUrl))
    else
      FetchProblemReported(f, cause)
  }

  /** The failure callback of `enterPassword`. An endpoint problem always
      sends the user to the URL screen; it is explained there only when a
      session resource has been entered, and the URL error is cleared
      otherwise. */
  function PasswordFailure(f: Form, cause: Throwable, networkAvailable: bool): (t: Form)
    ensures !t.loading && SameInputs(f, t)
    ensures Classify(cause) == Unauthorized ==>
      t == f.(loading := false, passwordError := Some(WrongPassword))
    ensures Classify(cause) == UnresolvedHost && networkAvailable ==>
      t == f.(loading := false, sessionResourceError := None, redirection := Some(EnterUrl))
    ensures Classify(cause) == UnresolvedHost && !networkAvailable ==>
      t == f.(loading := false, passwordError := Some(NoNetworkConnection))
    ensures Classify(cause) == EndpointUnreachable && NullToEmpty(f.sessionResource) != "" ==>
      t == f.(loading := false, sessionResourceError := Some(CauseToString(cause)), redirection := Some(EnterUrl))
    ensures Classify(cause) == EndpointUnreachable && NullToEmpty(f.sessionResource) == "" ==>
      t == f.(loading := false, sessionResourceError := None, redirection := Some(EnterUrl))
    ensures Classify(cause) == Unknown ==> t == FetchProblemReported(f.(loading := false), cause)
  {
    var f := f.(loading := false);
    if cause.kind.UnauthorizedException? then
      f.(passwordError := Some(WrongPassword))
    else if cause.kind.UnknownHostException? then
      if networkAvailable then
        f.(sessionResourceError := None, redirection := Some(EnterUrl))
      else
        f.(passwordError := Some(NoNetworkConnection))
    else if IsEndpointProblem(cause) then
      var error := if EmptyToNull(f.sessionResource).Some? then Some(CauseToString(cause)) else None;
      f.(sessionResourceError := error, redirection := Some(EnterUrl))
    else
      FetchProblemReported(f, cause)
  }

  /** The failure callback of `enterSessionResource`; `url` is the URL
      parsed at submission. Only an authorization failure redirects; every
      problem with the server is explained at the URL field. */
  function SessionResourceFailure(f: Form, url: HttpUrl, cause: Throwable, networkAvailable: bool): (t: Form)
    ensures !t.loading && SameInputs(f, t)
    ensures Classify(cause) == Unauthorized ==>
      t == f.(loading := false, passwordError := None, redirection := Some(EnterPassword))
    ensures Classify(cause) == EndpointUnreachable ==>
      t == f.(loading := false, sessionResourceError := Some(CauseToString(cause)))
    ensures Classify(cause) == UnresolvedHost && networkAvailable ==>
      t == f.(loading := false, sessionResourceError := Some(UnknownHost(url.host)))
    ensures Classify(cause) == UnresolvedHost && !networkAvailable ==>
      t == f.(loading := false, sessionResourceError := Some(NoNetworkConnection))
    ensures Classify(cause) == Unknown ==> t == FetchProblemReported(f.(loading := false), cause)
  {
    var f := f.(loading := false);
    if cause.kind.UnauthorizedException? then
      f.(passwordError := None, redirection := Some(EnterPassword))
    else if IsEndpointProblem(cause) then
      f.(sessionResourceError := Some(CauseToString(cause)))
    else if cause.kind.UnknownHostException? then
      if networkAvailable then
        f.(sessionResourceError := Some(UnknownHost(url.host)))
      else
        f.(sessionResourceError := Some(NoNetworkConnection))
    else
      FetchProblemReported(f, cause)
  }

  /** `processAccounts`: with exactly one mail account the accounts are
      stored under the credentials a fetch would use now, and the screen
      waits for the store; with any other number the user is sent to pick
      an account. When the stored session resource does not parse, the
      callback throws and nothing happens. */
  function AccountsProcessed(f: Form, session: Session, parseUrl: string -> Option<HttpUrl>): (r: (Form, Option<InsertRequest>))
    ensures |session.mailAccounts| != 1 ==>
      r == (f.(loading := false, redirection := Some(SelectAccounts)), None)
    ensures |session.mailAccounts| == 1 ==> r.0 == f
    ensures r.1.Some? <==>
      |session.mailAccounts| == 1 && !GetHttpSessionResource(f.sessionResource, parseUrl).Malformed?
    ensures r.1.Some? ==>
      && GetSession(f.emailAddress, f.password, f.sessionResource, parseUrl)
         == Some(SessionRequest(r.1.value.emailAddress, r.1.value.password, r.1.value.sessionResource))
      && r.1.value.primaryAccountId == session.primaryMailAccount
      && r.1.value.accounts == session.mailAccounts
  {
    if |session.mailAccounts| == 1 then
      match GetSession(f.emailAddress, f.password, f.sessionResource, parseUrl)
      case None => (f, None)
      case Some(q) =>
        (f, Some(InsertRequest(q.username, q.password, q.sessionResource, session.primaryMailAccount, session.mailAccounts)))
    else
      (f.(loading := false, redirection := Some(SelectAccounts)), None)
  }

  /** The callbacks of the account store: success sends the user on and
      leaves `loading` as it is; failure ends loading and warns. */
  function InsertCompleted(f: Form, succeeded: bool): (t: Form)
    ensures SameInputs(f, t)
    ensures succeeded ==> t.redirection == Some(Lttrs) && t.loading == f.loading && t.warningMessage == f.warningMessage
    ensures !succeeded ==> !t.loading && t.redirection == f.redirection && t.warningMessage == Some(UnableToSaveAccounts(1))
    ensures t.emailAddressError == f.emailAddressError && t.passwordError == f.passwordError
    ensures t.sessionResourceError == f.sessionResourceError
  {
    if succeeded then f.(redirection := Some(Lttrs))
    else f.(loading := false, warningMessage := Some(UnableToSaveAccounts(1)))
  }
}
