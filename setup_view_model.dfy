/** The setup screen's view model: nine observable fields the flow assigns
    step by step, three entry points that validate and start a session
    fetch, and the callbacks that apply the fetch's and the account store's
    results. Every method is proved to leave the object in the state the
    matching function of module SetupForm gives. */
module Setup {
  import opened Optional
  import opened JavaStrings
  import opened Failures
  import opened SetupForm

  class SetupViewModel {
    /** `EmailAddressUtil.isValid`. */
    const isValidEmail: string -> bool
    /** `HttpUrl.get`; None where it throws IllegalArgumentException. */
    const parseUrl: string -> Option<HttpUrl>

    var emailAddress: Option<string>
    var emailAddressError: Option<Message>
    var emailAddressAssigned: bool
    var password: Option<string>
    var passwordError: Option<Message>
    var passwordAssigned: bool
    var sessionResource: Option<string>
    var sessionResourceError: Option<Message>
    var sessionResourceAssigned: bool
    var loading: bool
    var redirection: Option<Target>
    var warningMessage: Option<Message>

    /** The fields as a value. */
    function State(): Form
      reads this
    {
      Form(emailAddress, emailAddressError, emailAddressAssigned,
           password, passwordError, passwordAssigned,
           sessionResource, sessionResourceError, sessionResourceAssigned,
           loading, redirection, warningMessage)
    }

    constructor(isValidEmail: string -> bool, parseUrl: string -> Option<HttpUrl>)
      ensures State() == Initial
      ensures this.isValidEmail == isValidEmail && this.parseUrl == parseUrl
    {
      this.isValidEmail := isValidEmail;
      this.parseUrl := parseUrl;
      emailAddress, emailAddressError, emailAddressAssigned := None, None, false;
      password, passwordError, passwordAssigned := None, None, false;
      sessionResource, sessionResourceError, sessionResourceAssigned := None, None, false;
      loading, redirection, warningMessage := false, None, None;
    }

    /** Assigns the address; the observer registered in the constructor
        clears its error when the value changes. */
    method SetEmailAddress(v: Option<string>)
      modifies this
      ensures State() == Assign(old(State()), Field.EmailAddress, v)
    {
      var changed := !emailAddressAssigned || emailAddress != v;
      emailAddress, emailAddressAssigned := v, true;
      if changed {
        emailAddressError := None;
      }
    }

    /** Assigns the password; its observer clears its error on a change. */
    method SetPassword(v: Option<string>)
      modifies this
      ensures State() == Assign(old(State()), Field.Password, v)
    {
      var changed := !passwordAssigned || password != v;
      password, passwordAssigned := v, true;
      if changed {
        passwordError := None;
      }
    }

    /** Assigns the session resource; its observer clears its error on a change. */
    method SetSessionResource(v: Option<string>)
      modifies this
      ensures State() == Assign(old(State()), Field.SessionResource, v)
    {
      var changed := !sessionResourceAssigned || sessionResource != v;
      sessionResource, sessionResourceAssigned := v, true;
      if changed {
        sessionResourceError := None;
      }
    }

    /** `enterEmailAddress`, up to the start of the fetch. */
    method EnterEmailAddress() returns (submission: Submission)
      modifies this
      ensures (State(), submission) == SubmitEmailAddress(old(State()), isValidEmail, parseUrl)
    {
      ghost var before := State();
      SetPassword(None);
      SetSessionResource(None);
      ghost var cleared := State();
      assert cleared == Assign(Assign(before, Password, None), SessionResource, None);
      var email := Trim(NullToEmpty(emailAddress));
      if isValidEmail(email) {
        loading := true;
        emailAddressError := None;
        ghost var started := State();
        assert started == cleared.(loading := true, emailAddressError := None);
        SetEmailAddress(Some(email));
        assert State() == Assign(started, Field.EmailAddress, Some(email));
        var request := GetSession(emailAddress, password, sessionResource, parseUrl);
        submission := FetchStarted(request.value);
      } else if email == "" {
        emailAddressError := Some(EnterAnEmailAddress);
        submission := NoFetch;
      } else {
        emailAddressError := Some(EnterAValidEmailAddress);
        submission := NoFetch;
      }
    }

    /** `enterPassword`, up to the start of the fetch. */
    method EnterPassword() returns (submission: Submission)
      modifies this
      ensures (State(), submission) == SubmitPassword(old(State()), parseUrl)
    {
      var entered := NullToEmpty(password);
      if entered == "" {
        passwordError := Some(EnterAPassword);
        submission := NoFetch;
      } else {
        loading := true;
        passwordError := None;
        var request := GetSession(emailAddress, password, sessionResource, parseUrl);
        submission := if request.Some? then FetchStarted(request.value) else FetchThrew;
      }
    }

    /** `enterSessionResource`, up to the start of the fetch. */
    method EnterSessionResource() returns (submission: Submission)
      modifies this
      ensures (State(), submission) == SubmitSessionResource(old(State()), parseUrl)
    {
      var entered := sessionResource;
      var parsed := parseUrl(NullToEmpty(entered));
      if parsed.None? {
        sessionResourceError := Some(EnterAValidUrl);
        return NoFetch;
      }
      var url := parsed.value;
      if url.scheme == "http" {
        sessionResourceError := Some(EnterASecureUrl);
        return NoFetch;
      }
      loading := true;
      SetSessionResource(Some(url.canonical));
      sessionResourceError := None;
      // The canonical text is posted and lands after this method returns,
      // so the client is built from the text as entered.
      var request := GetSession(emailAddress, password, entered, parseUrl);
      submission := FetchStarted(request.value);
    }

    /** `reportUnableToFetchSession`. */
    method ReportUnableToFetchSession(cause: Throwable)
      modifies this
      ensures State() == FetchProblemReported(old(State()), cause)
    {
      if cause.kind.InterruptedException? {
        return;
      }
      var detail := if cause.message.None? then SimpleName(cause.kind) else cause.message.value;
      warningMessage := Some(UnableToFetchSession(detail));
    }

    /** `processAccounts`; returns the call made to the account store, if any. */
    method ProcessAccounts(session: Session) returns (insert: Option<InsertRequest>)
      modifies this
      ensures (State(), insert) == AccountsProcessed(old(State()), session, parseUrl)
    {
      var accounts := session.mailAccounts;
      if |accounts| == 1 {
        var lookup := GetHttpSessionResource(sessionResource, parseUrl);
        if lookup.Malformed? {
          return None;
        }
        var resource := if lookup.Override? then Some(lookup.url) else None;
        insert := Some(InsertRequest(NullToEmpty(emailAddress), NullToEmpty(password), resource,
                                     session.primaryMailAccount, accounts));
      } else {
        loading := false;
        redirection := Some(Target.SelectAccounts);
        insert := None;
      }
    }

    /** The callbacks `enterEmailAddress` registers on the fetch. */
    method CompleteEmailAddress(outcome: FetchOutcome, networkAvailable: bool) returns (insert: Option<InsertRequest>)
      modifies this
      ensures outcome.Failed? ==>
        State() == EmailAddressFailure(old(State()), outcome.cause, networkAvailable) && insert.None?
      ensures outcome.Fetched? ==>
        (State(), insert) == AccountsProcessed(old(State()), outcome.session, parseUrl)
    {
      match outcome
      case Fetched(session) =>
        insert := ProcessAccounts(session);
      case Failed(cause) =>
        insert := None;
        loading := false;
        if cause.kind.UnauthorizedException? {
          passwordError := None;
          redirection := Some(Target.EnterPassword);
        } else if cause.kind.UnknownHostException? {
          if networkAvailable {
            sessionResourceError := None;
            redirection := Some(Target.EnterUrl);
          } else {
            emailAddressError := Some(NoNetworkConnection);
          }
        } else if IsEndpointProblem(cause) {
          sessionResourceError := None;
          redirection := Some(Target.EnterUrl);
        } else {
          ReportUnableToFetchSession(cause);
        }
    }

    /** The callbacks `enterPassword` registers on the fetch. */
    method CompletePassword(outcome: FetchOutcome, networkAvailable: bool) returns (insert: Option<InsertRequest>)
      modifies this
      ensures outcome.Failed? ==>
        State() == PasswordFailure(old(State()), outcome.cause, networkAvailable) && insert.None?
      ensures outcome.Fetched? ==>
        (State(), insert) == AccountsProcessed(old(State()), outcome.session, parseUrl)
    {
      match outcome
      case Fetched(session) =>
        insert := ProcessAccounts(session);
      case Failed(cause) =>
        insert := None;
        loading := false;
        if cause.kind.UnauthorizedException? {
          passwordError := Some(WrongPassword);
        } else if cause.kind.UnknownHostException? {
          if networkAvailable {
            sessionResourceError := None;
            redirection := Some(Target.EnterUrl);
          } else {
            passwordError := Some(NoNetworkConnection);
          }
        } else if IsEndpointProblem(cause) {
          if EmptyToNull(sessionResource).Some? {
            sessionResourceError := Some(CauseToString(cause));
          } else {
            sessionResourceError := None;
          }
          redirection := Some(Target.EnterUrl);
        } else {
          ReportUnableToFetchSession(cause);
        }
    }

    /** The callbacks `enterSessionResource` registers on the fetch; `url` is
        the URL it parsed, which the callbacks capture. */
    method CompleteSessionResource(url: HttpUrl, outcome: FetchOutcome, networkAvailable: bool)
      returns (insert: Option<InsertRequest>)
      modifies this
      ensures outcome.Failed? ==>
        State() == SessionResourceFailure(old(State()), url, outcome.cause, networkAvailable) && insert.None?
      ensures outcome.Fetched? ==>
        (State(), insert) == AccountsProcessed(old(State()), outcome.session, parseUrl)
    {
      match outcome
      case Fetched(session) =>
        insert := ProcessAccounts(session);
      case Failed(cause) =>
        insert := None;
        loading := false;
        if cause.kind.UnauthorizedException? {
          passwordError := None;
          redirection := Some(Target.EnterPassword);
        } else if IsEndpointProblem(cause) {
          sessionResourceError := Some(CauseToString(cause));
        } else if cause.kind.UnknownHostException? {
          if networkAvailable {
            sessionResourceError := Some(UnknownHost(url.host));
          } else {
            sessionResourceError := Some(NoNetworkConnection);
          }
        } else {
          ReportUnableToFetchSession(cause);
        }
    }

    /** The callbacks `processAccounts` registers on the account store. */
    method CompleteInsert(succeeded: bool)
      modifies this
      ensures State() == InsertCompleted(old(State()), succeeded)
    {
      if succeeded {
        redirection := Some(Target.Lttrs);
      } else {
        loading := false;
        warningMessage := Some(UnableToSaveAccounts(1));
      }
    }
  }
}
