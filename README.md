# Account setup flow of the Ltt.rs Android client, in Dafny

This project models `SetupViewModel`, the object behind the account-setup
screens of the Ltt.rs JMAP mail client. The user enters an email address,
then possibly a password and possibly a JMAP session resource URL. Each of
the three entry points validates its input, starts a fetch of the JMAP
session, and maps the fetch's failure to exactly one reaction: a field
error, a redirection to another screen (`Target`), or a warning. Which
reaction depends on the entry point and, for an unknown host, on whether a
network is available. A fetched session with exactly one mail account is
stored; any other number sends the user to pick an account.

Modules:

- `Optional` (`optional.dfy`): `Option`, for Java's nullable references.
- `JavaStrings` (`java_strings.dfy`): Guava's `Strings.nullToEmpty` and
  `emptyToNull`, and `String.trim`, with what trimming keeps and drops.
- `Failures` (`failures.dfy`): the exception classes the flow distinguishes,
  the texts it posts (by string resource id), `isEndpointProblem`,
  `causeToString`, and the warning of `reportUnableToFetchSession`. A
  reference classification `Classify` into the categories unauthorized /
  endpoint unreachable / unresolved host / unknown keys the failure tables.
- `SetupForm` (`setup_form.dfy`): the screen as a value (`Form`) and one
  function per step, whose contracts state the validation rules and the
  failure tables.
- `Setup` (`setup_view_model.dfy`): the class `SetupViewModel` with the nine
  observable fields. Its methods assign them in the source's order, and each
  is proved to end in the state the matching `SetupForm` function gives.
- `SetupFlows` (`setup_flows.dfy`): properties of a submission followed by
  its completion, and the finding below.

How the model stands in for what it cannot run:

- The session fetch is split in two. An `Enter…` method validates and
  returns a `Submission` (no fetch, fetch started with its `SessionRequest`,
  or an exception escaped). A `Complete…` method then takes the
  `FetchOutcome` (`Fetched(session)` or `Failed(cause)`) and whether a
  network is available. The callback of `enterSessionResource` also gets
  the URL parsed at submission, which the source's callback captures.
- The account store is split the same way. `ProcessAccounts` returns the
  `InsertRequest` it would send, and `CompleteInsert` takes whether the
  store succeeded.
- `EmailAddressUtil.isValid` and `HttpUrl.get` are functions the object is
  constructed with (`isValidEmail`, `parseUrl`). `parseUrl` returns `None`
  where `HttpUrl.get` throws.
- Each `postValue`/`setValue` is an assignment, made in the source's order.
  The observers registered in the constructor clear a field's error when
  the field changes. They are modelled as part of the field's setter,
  including `distinctUntilChanged` passing on a field's first value whatever
  it is (the `…Assigned` flags).
- `redirection` and `warningMessage` hold the last value posted.

Quirks of the code the model keeps:

- Submitting a URL does not clear the password. Only submitting an email
  address clears the password and the session resource.
- A successful store of the single account posts `LTTRS` and leaves
  `loading` as it was. Only a failed store resets it.
- `enterPassword` does not check the stored session resource before it
  builds the client. If that text cannot be parsed, `HttpUrl.get`'s
  IllegalArgumentException escapes `enterPassword` (`FetchThrew`). After a
  single-account session, the same exception is thrown inside the
  success callback, where the futures library drops it, so nothing changes.

## Model

| member | source | states |
|---|---|---|
| `JavaStrings.TrimStart` | app/src/main/java/rs/ltt/android/ui/model/SetupViewModel.java:135 | the result is a suffix of the input, does not start with a space or control character, and everything dropped is one |
| `JavaStrings.TrimEnd` | app/src/main/java/rs/ltt/android/ui/model/SetupViewModel.java:135 | the result is a prefix of the input, does not end with a space or control character, and everything dropped is one |
| `JavaStrings.Trim` | app/src/main/java/rs/ltt/android/ui/model/SetupViewModel.java:135 | the trimmed address is no longer than the input and neither starts nor ends with a space or control character |
| `JavaStrings.TrimKeepsInfix` | app/src/main/java/rs/ltt/android/ui/model/SetupViewModel.java:135 | trimming keeps an infix of the input and cuts off only spaces and control characters on either side |
| `JavaStrings.TrimEmptyIffBlank` | app/src/main/java/rs/ltt/android/ui/model/SetupViewModel.java:169 | the address counts as empty exactly when it holds nothing but spaces and control characters |
| `JavaStrings.TrimIdempotent` | app/src/main/java/rs/ltt/android/ui/model/SetupViewModel.java:135-139 | trimming the trimmed address written back changes nothing |
| `Failures.IsEndpointProblem` | app/src/main/java/rs/ltt/android/ui/model/SetupViewModel.java:87-94 | holds exactly for the six classes the reference classification calls endpoint-unreachable |
| `Failures.CauseToString` | app/src/main/java/rs/ltt/android/ui/model/SetupViewModel.java:341-362 | defined only on endpoint problems; always one of the six endpoint texts |
| `Failures.CauseToStringDistinguishesKinds` | app/src/main/java/rs/ltt/android/ui/model/SetupViewModel.java:341-362 | two endpoint problems get the same text exactly when they are of the same class |
| `Failures.FetchFailureWarning` | app/src/main/java/rs/ltt/android/ui/model/SetupViewModel.java:312-324 | no warning for an interruption; otherwise "unable to fetch session" with the message, or the class's simple name when the message is null |
| `SetupForm.Assign` | app/src/main/java/rs/ltt/android/ui/model/SetupViewModel.java:82-84 | setting a field to a different value (or for the first time) clears its own error; the other fields, their errors and the outputs are untouched; re-setting an equal value changes nothing |
| `SetupForm.GetHttpSessionResource` | app/src/main/java/rs/ltt/android/ui/model/SetupViewModel.java:332-339 | no override for a null or empty resource, the parsed URL otherwise, and the parse failure exactly when non-empty text does not parse |
| `SetupForm.GetSession` | app/src/main/java/rs/ltt/android/ui/model/SetupViewModel.java:269-276 | the client gets the address and password null-to-empty and the resource override; building it fails exactly when the resource text is malformed |
| `SetupForm.SubmitEmailAddressValidates` | app/src/main/java/rs/ltt/android/ui/model/SetupViewModel.java:132-179 | password and session resource are cleared whatever the validation says; a valid trimmed address is written back, loading is set and a fetch starts for it; an invalid one starts nothing, leaves loading, and gets "enter an email address" when empty and "enter a valid email address" otherwise |
| `SetupForm.SubmitPassword` | app/src/main/java/rs/ltt/android/ui/model/SetupViewModel.java:182-196 | an empty password gets "enter a password" and starts nothing; otherwise loading is set, the password error cleared, and the fetch uses the stored address, the untrimmed password and, when the stored resource is not empty, exactly the URL it parses to; it throws exactly when the stored resource is malformed |
| `SetupForm.SubmitSessionResource` | app/src/main/java/rs/ltt/android/ui/model/SetupViewModel.java:226-266 | unparseable text gets "enter a valid url" and an `http` URL "enter a secure url", neither touching loading or starting a fetch; otherwise the canonical URL is stored, its error cleared, loading set and the fetch made for the parsed URL with the stored address and password, both kept |
| `SetupForm.FetchProblemReported` | app/src/main/java/rs/ltt/android/ui/model/SetupViewModel.java:312-324 | an interruption changes nothing; any other cause posts a warning and changes nothing else |
| `SetupForm.EmailAddressFailure` | app/src/main/java/rs/ltt/android/ui/model/SetupViewModel.java:147-166 | loading ends and inputs are kept; unauthorized: password error cleared, redirect to ENTER_PASSWORD; unknown host with network, or endpoint problem: URL error cleared, redirect to ENTER_URL; unknown host without network: email error "no network connection", no redirect; anything else: the warning path |
| `SetupForm.PasswordFailure` | app/src/main/java/rs/ltt/android/ui/model/SetupViewModel.java:198-220 | loading ends; unauthorized: "wrong password", no redirect; unknown host: redirect to ENTER_URL or "no network connection" on the password; endpoint problem: always ENTER_URL, URL error set to the cause's text only when a resource was entered and cleared otherwise |
| `SetupForm.SessionResourceFailure` | app/src/main/java/rs/ltt/android/ui/model/SetupViewModel.java:244-261 | loading ends; unauthorized: redirect to ENTER_PASSWORD; endpoint problem: URL error is the cause's text, no redirect; unknown host: URL error "unknown host" with the URL's host, or "no network connection" |
| `SetupForm.AccountsProcessed` | app/src/main/java/rs/ltt/android/ui/model/SetupViewModel.java:278-310 | one mail account: the screen is untouched and the store gets the current credentials, primary account and account map; any other count: loading ends, redirect to SELECT_ACCOUNTS, no store call |
| `SetupForm.InsertCompleted` | app/src/main/java/rs/ltt/android/ui/model/SetupViewModel.java:289-304 | success redirects to LTTRS and leaves loading; failure ends loading and warns "unable to save accounts" without redirecting |
| `Setup.SetupViewModel.constructor` | app/src/main/java/rs/ltt/android/ui/model/SetupViewModel.java:79-85 | a new screen holds nothing, is not loading and has posted nothing |
| `Setup.SetupViewModel.SetEmailAddress` | app/src/main/java/rs/ltt/android/ui/model/SetupViewModel.java:82 | the new state is `Assign` of the address |
| `Setup.SetupViewModel.SetPassword` | app/src/main/java/rs/ltt/android/ui/model/SetupViewModel.java:84 | the new state is `Assign` of the password |
| `Setup.SetupViewModel.SetSessionResource` | app/src/main/java/rs/ltt/android/ui/model/SetupViewModel.java:83 | the new state is `Assign` of the session resource |
| `Setup.SetupViewModel.EnterEmailAddress` | app/src/main/java/rs/ltt/android/ui/model/SetupViewModel.java:132-180 | new state and submission are those of `SubmitEmailAddress` |
| `Setup.SetupViewModel.EnterPassword` | app/src/main/java/rs/ltt/android/ui/model/SetupViewModel.java:182-224 | new state and submission are those of `SubmitPassword` |
| `Setup.SetupViewModel.EnterSessionResource` | app/src/main/java/rs/ltt/android/ui/model/SetupViewModel.java:226-267 | new state and submission are those of `SubmitSessionResource` |
| `Setup.SetupViewModel.ReportUnableToFetchSession` | app/src/main/java/rs/ltt/android/ui/model/SetupViewModel.java:312-324 | the new state is that of `FetchProblemReported` |
| `Setup.SetupViewModel.ProcessAccounts` | app/src/main/java/rs/ltt/android/ui/model/SetupViewModel.java:278-310 | new state and store call are those of `AccountsProcessed` |
| `Setup.SetupViewModel.CompleteEmailAddress` | app/src/main/java/rs/ltt/android/ui/model/SetupViewModel.java:140-167 | a failure gives `EmailAddressFailure` and no store call; a session gives `AccountsProcessed` |
| `Setup.SetupViewModel.CompletePassword` | app/src/main/java/rs/ltt/android/ui/model/SetupViewModel.java:191-221 | a failure gives `PasswordFailure` and no store call; a session gives `AccountsProcessed` |
| `Setup.SetupViewModel.CompleteSessionResource` | app/src/main/java/rs/ltt/android/ui/model/SetupViewModel.java:237-262 | a failure gives `SessionResourceFailure` for the captured URL and no store call; a session gives `AccountsProcessed` |
| `Setup.SetupViewModel.CompleteInsert` | app/src/main/java/rs/ltt/android/ui/model/SetupViewModel.java:289-304 | the new state is that of `InsertCompleted` |
| `SetupFlows.EmailAddressFlowStoresFetchedAccount` | app/src/main/java/rs/ltt/android/ui/model/SetupViewModel.java:278-288 | after an accepted address and a single-account session, the account is stored under exactly the credentials the session was fetched with; this holds for the corrected submission named under "## Findings" (as written, the fetch uses the untrimmed address) |
| `SetupFlows.PasswordFlowStoresFetchedAccount` | app/src/main/java/rs/ltt/android/ui/model/SetupViewModel.java:278-288 | the same after an accepted password |
| `SetupFlows.SessionResourceFlowStoresFetchedAccount` | app/src/main/java/rs/ltt/android/ui/model/SetupViewModel.java:278-288 | the same after an accepted URL, given that a parsed URL's canonical text parses back to it |
| `SetupFlows.ResubmittedAddressIsStable` | app/src/main/java/rs/ltt/android/ui/model/SetupViewModel.java:135-139 | for the corrected submission named under "## Findings": submitting an accepted address again starts the same fetch and keeps the same address (as written, an address with surrounding blanks is fetched untrimmed the first time and trimmed the second) |
| `SetupFlows.UnauthorizedAddressLeadsToPasswordScreen` | app/src/main/java/rs/ltt/android/ui/model/SetupViewModel.java:132-152 | an accepted address the server answers with unauthorized ends on the password screen with no password, no password error and loading over |
| `SetupFlows.EmailAddressSubmissionAsWritten` | app/src/main/java/rs/ltt/android/ui/model/SetupViewModel.java:135-140 | as written, the fetch is started for the address as typed, not the trimmed one |
| `SetupFlows.UntrimmedAddressIsFetched` | app/src/main/java/rs/ltt/android/ui/model/SetupViewModel.java:139-140 | "alice@example.com " is fetched for with its trailing space but stored as "alice@example.com" |

## Findings

| source | as written | input that shows it | evidently intended | confidence | as-written member | corrected member |
|---|---|---|---|---|---|---|
| app/src/main/java/rs/ltt/android/ui/model/SetupViewModel.java:139-140 | `enterEmailAddress` posts the trimmed address with `postValue` and then calls `getSession()`, which reads `emailAddress.getValue()` (line 271). A posted value lands only after the method returns, so the client is built from the address as typed. The account is later stored under the trimmed address. | an address typed as "alice@example.com " (trailing space) that `isValid` accepts once trimmed | the session is fetched for the trimmed address, the one written back and stored | medium; not executed; rests on `postValue` deferring to the main thread's next loop | `SetupFlows.EmailAddressSubmissionAsWritten`, `SetupFlows.UntrimmedAddressIsFetched` | `SetupForm.SubmitEmailAddress` (proved by `SetupForm.SubmitEmailAddressValidates` and `SetupFlows.EmailAddressFlowStoresFetchedAccount`) |

## Left out

- `KeywordQueryViewModelFactory.java`: a reflective factory around a class that is not part of this model; it has no logic.
- `JmapClient.getSession`: network I/O. The model records the request (`SessionRequest`) and takes the outcome as a parameter.
- `MainRepository.insertAccountsRefreshMailboxes`: persistence. The model records the call (`InsertRequest`) and takes its success as a parameter.
- `isNetworkAvailable`: a platform query, taken as a boolean parameter.
- `EmailAddressUtil.isValid` and `HttpUrl.get`: foreign parsers, taken as functions the object is built with. Only the scheme, host and canonical text of a parsed URL are kept.
- LiveData threading: posts are assignments in order. Posts are not coalesced and there are no executors or threads. Two deferrals are kept because they change what the client is built from: the URL text as entered in `enterSessionResource`, and the finding above. The model's corrected `enterEmailAddress` builds the client from the trimmed address.
- The deduplicating wrappers returned by the error getters: they only suppress repeated notifications and hold no state of their own.
- The `Event` one-shot wrapper: `redirection` and `warningMessage` hold the last value posted; consuming an event is not modelled.
- Message text and localisation: messages are string resource ids with their arguments.
- Logging calls.
- The `boolean` the `enter…` methods return: always `true`.
- Concurrency: overlapping fetches, cancellation, and callbacks after the screen is gone. The source does not gate a submission on `loading`, and neither does the model.
- Exception subclassing: the exception classes are taken to be disjoint, as the JDK and JMAP library ones are.
- `Preconditions.checkNotNull(session)`: a fetched outcome always carries a session.
- The JMAP session object: only its mail accounts and primary mail account are modelled.
