/** Properties of whole passes through the setup flow: a submission
    followed by the fetch's completion. */
module SetupFlows {
  import opened Optional
  import opened JavaStrings
  import opened Failures
  import opened SetupForm

  /** The account stored after a single-account session is exactly the one
      the session was fetched for. */
  predicate StoresFetchedAccount(request: SessionRequest, session: Session, insert: Option<InsertRequest>)
  {
    insert == Some(InsertRequest(request.username, request.password, request.sessionResource,
                                 session.primaryMailAccount, session.mailAccounts))
  }

  /** Submitting an address and getting back a session with one mail
      account stores that account under the address, password and session
      resource the session was fetched with. */
  lemma EmailAddressFlowStoresFetchedAccount(
    f: Form, isValidEmail: string -> bool, parseUrl: string -> Option<HttpUrl>, session: Session)
    requires isValidEmail(Trim(NullToEmpty(f.emailAddress)))
    requires |session.mailAccounts| == 1
    ensures var (t, s) := SubmitEmailAddress(f, isValidEmail, parseUrl);
      StoresFetchedAccount(s.request, session, AccountsProcessed(t, session, parseUrl).1)
  {
  }

  /** The same for a submitted password. */
  lemma PasswordFlowStoresFetchedAccount(f: Form, parseUrl: string -> Option<HttpUrl>, session: Session)
    requires NullToEmpty(f.password) != "" && !GetHttpSessionResource(f.sessionResource, parseUrl).Malformed?
    requires |session.mailAccounts| == 1
    ensures var (t, s) := SubmitPassword(f, parseUrl);
      StoresFetchedAccount(s.request, session, AccountsProcessed(t, session, parseUrl).1)
  {
  }

  /** The same for a submitted session resource, given what `HttpUrl.get`
      guarantees of the URL it parsed: its canonical text is not empty and
      parses back to the same URL. */
  lemma SessionResourceFlowStoresFetchedAccount(f: Form, parseUrl: string -> Option<HttpUrl>, session: Session)
    requires NullToEmpty(f.sessionResource) != ""
    requires parseUrl(NullToEmpty(f.sessionResource)).Some? && parseUrl(NullToEmpty(f.sessionResource)).value.scheme != "http"
    requires var url := parseUrl(NullToEmpty(f.sessionResource)).value;
      url.canonical != "" && parseUrl(url.canonical) == Some(url)
    requires |session.mailAccounts| == 1
    ensures var (t, s) := SubmitSessionResource(f, parseUrl);
      StoresFetchedAccount(s.request, session, AccountsProcessed(t, session, parseUrl).1)
  {
    var (t, s) := SubmitSessionResource(f, parseUrl);
    var url := parseUrl(NullToEmpty(f.sessionResource)).value;
    assert t.sessionResource == Some(url.canonical);
    assert GetHttpSessionResource(t.sessionResource, parseUrl) == Override(url);
  }

  /** Submitting an accepted address again, with nothing edited in between,
      starts the same fetch: the address written back is already trimmed.
      This holds for the corrected submission, which fetches with the trimmed
      address; the submission as written does not have it. */
  lemma {:induction false} ResubmittedAddressIsStable(
    f: Form, isValidEmail: string -> bool, parseUrl: string -> Option<HttpUrl>)
    requires isValidEmail(Trim(NullToEmpty(f.emailAddress)))
    ensures var (t, s) := SubmitEmailAddress(f, isValidEmail, parseUrl);
      var (t', s') := SubmitEmailAddress(t, isValidEmail, parseUrl);
      s' == s && t'.emailAddress == t.emailAddress && t'.loading
  {
    var (t, s) := SubmitEmailAddress(f, isValidEmail, parseUrl);
    SubmitEmailAddressValidates(f, isValidEmail, parseUrl);
    SubmitEmailAddressValidates(t, isValidEmail, parseUrl);
    TrimIdempotent(NullToEmpty(f.emailAddress));
  }

  /** An address the server rejects the (empty) password for leads to the
      password screen with nothing in the way: no password, no password
      error, loading over. */
  lemma UnauthorizedAddressLeadsToPasswordScreen(
    f: Form, isValidEmail: string -> bool, parseUrl: string -> Option<HttpUrl>, cause: Throwable, networkAvailable: bool)
    requires isValidEmail(Trim(NullToEmpty(f.emailAddress)))
    requires cause.kind.UnauthorizedException?
    ensures var t := EmailAddressFailure(SubmitEmailAddress(f, isValidEmail, parseUrl).0, cause, networkAvailable);
      && t.redirection == Some(EnterPassword)
      && t.password.None? && t.passwordError.None?
      && !t.loading
  {
  }

  /** As written, `enterEmailAddress` posts the trimmed address and then
      builds the client, but a posted value lands only after the method
      returns: the client is built from the address as typed. */
  function EmailAddressSubmissionAsWritten(f: Form, isValidEmail: string -> bool, parseUrl: string -> Option<HttpUrl>): (s: Submission)
    ensures s.NoFetch? <==> !isValidEmail(Trim(NullToEmpty(f.emailAddress)))
    ensures s.FetchStarted? ==> s.request == SessionRequest(NullToEmpty(f.emailAddress), "", None)
  {
    if isValidEmail(Trim(NullToEmpty(f.emailAddress))) then
      FetchStarted(GetSession(f.emailAddress, None, None, parseUrl).value)
    else
      NoFetch
  }

  /** An address typed with a trailing space is fetched for with the space
      but stored without it. */
  lemma UntrimmedAddressIsFetched()
    ensures var f := Initial.(emailAddress := Some("alice@example.com "));
      var isValidEmail := (s: string) => s == "alice@example.com";
      var parseUrl := (s: string) => None;
      var (t, _) := SubmitEmailAddress(f, isValidEmail, parseUrl);
      var asWritten := EmailAddressSubmissionAsWritten(f, isValidEmail, parseUrl);
      && asWritten.FetchStarted?
      && asWritten.request.username == "alice@example.com "
      && t.emailAddress == Some("alice@example.com")
  {
    var typed := "alice@example.com ";
    var f := Initial.(emailAddress := Some(typed));
    var isValidEmail := (s: string) => s == "alice@example.com";
    var parseUrl := (s: string) => None;
    assert TrimStart(typed) == typed;
    assert typed[..|typed| - 1] == "alice@example.com";
    assert TrimEnd(typed) == "alice@example.com";
    assert Trim(typed) == "alice@example.com";
    SubmitEmailAddressValidates(f, isValidEmail, parseUrl);
  }
}
