# django-lti-tool-provider in Dafny

A model of the provider side of IMS LTI 1.x as implemented by the
`django_lti_tool_provider` package. The package is a Django plugin. It
verifies inbound basic launches, which are signed with OAuth 1.0
HMAC-SHA1 (section 3.4.2 of RFC 5849). It lets the host application log
the launching user in, and it stores each launch's parameters against
`(user, custom_key)`. Later it sends grades back with the "replaceResult"
operation of the LTI 1.1 Basic Outcomes service.

The model has five modules, one per source file plus shared types:

- `LtiBase` (`lti_base.dfy`): `Option`, `Result`, users and parameter maps.
- `Hooks` (`hooks.dfy`, for `__init__.py`): `AbstractApplicationHookManager`. Its two
  abstract capabilities are function fields of `HookManager`. The three
  capabilities with inherited defaults are `Override` fields, where
  `Inherited` means the default.
- `Models` (`models.dfy`, for `models.py`): the record key and table, and the grade-request
  validator and sender.
- `Signals` (`signals.dfy`, for `signals.py`): the grade-update receiver. It is a pure
  function over the result of the record lookup and the result of the
  post.
- `Views` (`views.dfy`, for `views.py`): the launch state machine. The pure functions
  (`ProcessResult` and the functions it is built from) give the new
  `World` and the response for each step. The class `LtiView` performs
  the same steps by updating its fields. Each of its methods ensures that
  its new state and its response are exactly what the matching function
  gives. The lemmas state the behaviour of those functions.

A `World` holds five things:

- the request's user (`None` when anonymous);
- its session;
- the record table (`map<RecordKey, ParamMap>`; keying the map by
  `(user, custom_key)` enforces the uniqueness constraint);
- the `received` notifications sent;
- the calls made to the authentication hook.

OAuth verification is the `verification` field of a `Request`: the
verified parameter map, or the verifier's error detail. It is fixed for a
given request, so verifying the same request twice gives the same result.

Behaviour of the code that the model keeps as written:

- When a logged-in user launches and the get-or-create lookup has to
  create their record, `_right_user` answers False and the user is logged
  out (`views.py:93-96`). It does not treat a first launch as "no
  mismatch". The row it creates holds only the user and the key; its
  parameters are the field default, the empty map (`models.py:16`). A
  grade for that user is therefore refused as "not set" until one of
  their launches is stored (`Views.CreatedRowHoldsNoLaunch`).
- A verification failure does not always end the request. For a
  logged-in user, the pre-check swallows it. On the authenticated path, a
  launch saved in the session is used without verifying the current
  request (`views.py:140-142`).
- An unsuccessful replaceResult outcome is returned, not raised
  (`models.py:53-59`). Only a validation failure or an exception from the
  post is an error.
- The grade-update receiver looks records up by user alone
  (`signals.py:30`). It takes no vary key. If a manager overrides
  `vary_by_key` and a user launches under two keys, the lookup finds two
  rows and raises `MultipleObjectsReturned`. `Views.DistinctKeysSplitRecords`
  proves this. With the default `vary_by_key`, this cannot happen
  (`Views.DefaultManagerOneOutcomePointPerUser`).
- The grade comparison `0 <= grade <= 1` is made on Python 2 values. A
  missing `grade` keyword is `None`, which orders below every number, so
  it fails the range check. The grade is modelled as `Option<real>`.
- Django's `logout` makes the user anonymous and flushes the session.
  `Views.LoggedOut` models both.

## Model

| member | source | states |
|---|---|---|
| `Hooks.HookManager.AnonymousRedirectTo` | django_lti_tool_provider/__init__.py:24-26 | the inherited redirect for an anonymous launch returns the opaque result of `resolve('lti')` whatever the launch data; an override is applied to the launch data |
| `Hooks.HookManager.VaryByKey` | django_lti_tool_provider/__init__.py:28-44 | the inherited vary key is absent |
| `Hooks.HookManager.OptionalLtiParameters` | django_lti_tool_provider/__init__.py:46-59 | the inherited optional-parameter mapping is empty |
| `Hooks.HookManager.CustomKey` | django_lti_tool_provider/__init__.py:39-41 | the stored `custom_key` is the vary key, with an absent key read as the empty string; with the default vary key it is always empty |
| `Hooks.DefaultCapabilities` | django_lti_tool_provider/__init__.py:24-59 | a manager that overrides nothing gives every anonymous launch the same `resolve('lti')` redirect, stores under the empty key, and declares no optional parameters |
| `Hooks.AbsentVaryKeyIsEmptyString` | django_lti_tool_provider/__init__.py:39-41 | an absent vary key and an explicitly empty one address the same record |
| `Models.StoreParameters` | django_lti_tool_provider/views.py:150-152 | storing a launch puts the parameters under the key, replacing any earlier row for it wholesale, and leaves every other row as it was |
| `Models.UnsetParameters` | django_lti_tool_provider/models.py:38-41 | the parameters reported are exactly the listed names that are absent or empty, never more than the list holds |
| `Models.UnsetRequiredParameters` | django_lti_tool_provider/models.py:23-25 | the unset required parameters come out in `_required_params` order: `lis_result_sourcedid` before `lis_outcome_service_url` |
| `Models.ValidateGradeRequest` | django_lti_tool_provider/models.py:27-47 | validation passes if and only if the grade is in [0, 1] and both required parameters are present and non-empty; the range is checked first, then "no parameters at all" (None or empty), then the unset required parameters, which are never an empty list |
| `Models.MissingParametersMessage` | django_lti_tool_provider/models.py:43-47 | the error message names exactly the offending parameters in list order, joined by ", " |
| `Models.GradeBoundaries` | django_lti_tool_provider/models.py:32-33 | 0 and 1 are accepted; any grade outside [0, 1], and a missing grade, fails the range check whatever parameters are stored |
| `Models.Message` | django_lti_tool_provider/models.py:32-47 | the range message is "Grade should be in range [0..1], got " followed by the rendered grade; the not-set message is "LTI grade parameters is not set"; the missing-parameters message starts with "Following required LTI parameters are not set: "; each failure is recognised by its text |
| `Models.SendLtiGrade` | django_lti_tool_provider/models.py:49-59 | a grade that fails validation is never posted; otherwise the post is made once, on the stored parameters, with the grade unchanged, and its outcome (successful or not) or its exception is what is returned |
| `Signals.LookupByUser` | django_lti_tool_provider/signals.py:30 | the lookup by user finds nothing when the user has no row, finds the user's row when there is exactly one, and raises `MultipleObjectsReturned` otherwise |
| `Signals.SendGrade` | django_lti_tool_provider/signals.py:26-42 | no user is a `ValueError` logged as an exception; a missing record is logged at info level; every other failure is logged as an exception; every failure is re-raised if and only if strict; for a found record, a rejected grade fails with its validation error and a failed post with its own detail, so the send's exception escapes unchanged; delivery happens exactly when the user's record exists and the send succeeds, and carries the post's outcome for the unchanged grade |
| `Signals.GradeUpdatedHandler` | django_lti_tool_provider/signals.py:19-23 | the handler forwards `user` and `grade` (None when absent) in strict mode, so every failure propagates |
| `Signals.StrictnessOnlyDecidesReraise` | django_lti_tool_provider/signals.py:32-42 | strict and lenient mode reach the same verdict and log line; only strict mode lets the error escape |
| `Signals.DeliveredFromTheUsersRecord` | django_lti_tool_provider/signals.py:30-31 | for a user with exactly one record, the grade is validated against and posted from that record's parameters |
| `Views.Contains` | django_lti_tool_provider/views.py:84 | the substring test holds if and only if the substring occurs at some position |
| `Views.LtiParamFilter` | django_lti_tool_provider/views.py:79-85 | the filter keeps exactly the entries whose key does not contain "oauth", with their values unchanged |
| `Views.FilterIdempotent` | django_lti_tool_provider/views.py:79-85 | filtering an already filtered map changes nothing |
| `Views.OauthKeyContainsA` | django_lti_tool_provider/views.py:84 | every key the filter drops contains an 'a'; this is the step that shows the six LTI launch fields, which contain no 'a', are kept |
| `Views.FilterKeepsLaunchFields` | django_lti_tool_provider/views.py:79-85 | the `oauth_*` protocol fields of a signed launch are dropped; `user_id`, `roles`, `context_id`, `resource_link_id` and the two outcome fields are kept unchanged |
| `Views.AuthenticationHookData` | django_lti_tool_provider/views.py:65-68 | the hook receives exactly `username`, `email` and `user_id`: the launch's `lis_person_sourcedid`, `lis_person_contact_email_primary` and `user_id`, or None when a field is absent |
| `Views.IsNewLtiRequest` | django_lti_tool_provider/views.py:157-159 | a request is a new launch exactly when its raw POST fields carry `lis_result_sourcedid`; its verification plays no part |
| `Views.RightUserResult` | django_lti_tool_provider/views.py:87-99 | the verdict is "right user" exactly when the lookup finds an existing row; "wrong user" exactly when it has to create one or raises `ValueError`; `AttributeError` and any other exception are passed on by name; only a creation changes the table, adding the key with the empty map |
| `Views.PreCheckResult` | django_lti_tool_provider/views.py:49-57 | the pre-check never notifies or calls the hook; a verification failure changes nothing; the user either stays with the session untouched or is logged out with the session flushed; it raises exactly for an exception other than `ValueError`/`AttributeError`, and then changes nothing |
| `Views.AfterHook` | django_lti_tool_provider/views.py:65-72 | the hook call is recorded with the identity data; the user becomes the one the hook logs in, or stays as it was; session, records and notifications are unchanged |
| `Views.AnonymousResult` | django_lti_tool_provider/views.py:112-127 | a failed verification gives 400 with the detail and changes nothing; a verified launch is saved unfiltered under `lti_parameters` and redirected to `anonymous_redirect_to`; user, records, notifications and hook calls are unchanged |
| `Views.StoreResult` | django_lti_tool_provider/views.py:150-155 | the filtered launch is upserted under the user's `(user, custom_key)`; exactly one notification is appended, carrying that row; the redirect is `authenticated_redirect_to` of the unfiltered launch; user, session and hook calls are unchanged |
| `Views.AuthenticatedResult` | django_lti_tool_provider/views.py:129-155 | the response is a redirect or a 400; it is a 400, with nothing changed, exactly when no saved launch is usable and the request fails verification; a redirect comes with exactly one new notification; user and hook calls are unchanged |
| `Views.ProcessResult` | django_lti_tool_provider/views.py:48-77 | a request raises exactly when a logged-in user's verified launch meets a lookup exception other than `ValueError`/`AttributeError`, and then nothing changes; a 400 happens only for a failed verification, with nothing changed |
| `Views.DispatchResult` | django_lti_tool_provider/views.py:36-40 | `ImproperlyConfigured` is raised exactly when no manager is registered, and then nothing changes |
| `Views.CreatedRowHoldsNoLaunch` | django_lti_tool_provider/views.py:87-96 | a logged-in user whose verified launch has no row yet is logged out, and the row created for them is empty, so any in-range grade for it fails as "not set" (models.py:16, 35-36) |
| `Views.HookSeesOnlyIdentity` | django_lti_tool_provider/views.py:58-72 | a request calls the hook at most once, and only with the identity fields of the verified launch |
| `Views.InvalidAnonymousLaunchRejected` | django_lti_tool_provider/views.py:58-63 | an anonymous launch that fails verification gets 400 with "Invalid LTI Request: " and the detail; the hook is not called, and the session, records and notifications are unchanged |
| `Views.AnonymousLaunchStashed` | django_lti_tool_provider/views.py:112-127 | a verified launch that the hook does not authenticate is saved unfiltered in the session under `lti_parameters` and redirected to `anonymous_redirect_to`; no record is written and no notification is sent |
| `Views.RightUserDecidesLogout` | django_lti_tool_provider/views.py:49-57 | a logged-in user is logged out (with the session flushed) if and only if the launch verifies and the lookup either creates the record or raises `ValueError`; otherwise the user and session are untouched; only an exception other than `ValueError`/`AttributeError` escapes |
| `Views.SavedLaunchResumed` | django_lti_tool_provider/views.py:140-142 | when the session holds a launch and the request has no `lis_result_sourcedid`, the saved launch is stored (filtered) and removed from the session, and the redirect uses the saved launch |
| `Views.FreshLaunchVerified` | django_lti_tool_provider/views.py:143-148 | otherwise the request itself is verified: a failure gives 400 with nothing changed, and a saved session launch stays in place |
| `Views.ReturningUserLaunchRecorded` | django_lti_tool_provider/views.py:150-155 | a verified launch by a user who already has a record replaces it with the filtered parameters, sends one notification carrying that record, and redirects to `authenticated_redirect_to` of the unfiltered parameters |
| `Views.StoreAnnounces` | django_lti_tool_provider/views.py:150-153 | storing a launch keeps the user and appends exactly one notification, which carries the row stored for the user under its own key |
| `Views.AuthenticatedAnnounces` | django_lti_tool_provider/views.py:129-155 | the authenticated path keeps the user; it either redirects and announces the stored row, or changes nothing |
| `Views.ReceivedCarriesStoredRecord` | django_lti_tool_provider/views.py:150-153 | the notification is sent exactly when a launch ends in the application, once, for the logged-in user, with the record stored for them under its own key |
| `Views.LaunchSurvivesLoginDetour` | django_lti_tool_provider/views.py:112-155 | a launch stashed while anonymous is stored for the user on the unsigned return trip after login, and the session entry is cleared |
| `Views.UnconfiguredViewRefuses` | django_lti_tool_provider/views.py:36-40 | with no manager registered, dispatch raises `ImproperlyConfigured` and changes nothing |
| `Views.DefaultManagerStoresDefaultKeys` | django_lti_tool_provider/__init__.py:28-44 | with the default `vary_by_key`, no request ever stores a record under a non-empty `custom_key` |
| `Views.DefaultManagerStoresUnderEmptyKey` | django_lti_tool_provider/__init__.py:28-44 | with the default `vary_by_key`, storing a launch and the get-or-create both keep every stored key empty |
| `Views.AuthenticatedStoresDefaultKeys` | django_lti_tool_provider/views.py:140-152 | with the default `vary_by_key`, the authenticated path keeps every stored key empty |
| `Views.DefaultKeysOneRecordPerUser` | django_lti_tool_provider/models.py:19-21 | when every key is empty, a user has at most one record, so the lookup by user never finds several |
| `Views.DefaultManagerOneOutcomePointPerUser` | django_lti_tool_provider/__init__.py:30-32 | with the default `vary_by_key`, after any run of requests there is one outcome point per user: the lookup by user never raises |
| `Views.GradeFindsLatestLaunch` | django_lti_tool_provider/signals.py:30-31 | with the default `vary_by_key`, a grade update after a launch that reached the application finds exactly the record that launch announced |
| `Views.SameKeyOverwrites` | django_lti_tool_provider/models.py:21 | a second launch with the same `(user, custom_key)` replaces the record and never adds one |
| `Views.DistinctKeysSplitRecords` | django_lti_tool_provider/signals.py:30 | launches under two vary keys give a user two independent records, and the lookup by user then raises `MultipleObjectsReturned` |
| `Views.LtiView.RegisterAuthenticationManager` | django_lti_tool_provider/views.py:107-110 | registering sets the manager and changes nothing else |
| `Views.LtiView.Dispatch` | django_lti_tool_provider/views.py:36-40 | the view's new state and response are those of `DispatchResult` |
| `Views.LtiView.ProcessRequest` | django_lti_tool_provider/views.py:48-77 | the view's new state and response are those of `ProcessResult` |
| `Views.LtiView.CheckUser` | django_lti_tool_provider/views.py:87-99 | the get-or-create writes the table as `RightUserResult` says (a created row is empty) and returns its verdict; user, session, notifications and hook calls are unchanged |
| `Views.LtiView.Logout` | django_lti_tool_provider/views.py:54 | the user becomes anonymous and the session is flushed |
| `Views.LtiView.AuthenticationHook` | django_lti_tool_provider/views.py:72 | the call is recorded; the user becomes the one the hook logs in, if any; nothing else changes |
| `Views.LtiView.ProcessAnonymousLti` | django_lti_tool_provider/views.py:112-127 | the view's new state and response are those of `AnonymousResult` |
| `Views.LtiView.ProcessAuthenticatedLti` | django_lti_tool_provider/views.py:129-155 | the view's new state and response are those of `AuthenticatedResult` |

## Left out

- OAuth 1.0 signature checking and parameter extraction (`DjangoToolProvider.valid_request`/`to_params`, section 3.2 of RFC 5849) are not modelled. Each request carries the verifier's result, and `oauth2.Error` is its `Err` detail.
- The replaceResult HTTP post, its XML and its `OutcomeResponse` object are not modelled. The post is the function parameter `ReplaceResult`, which returns an outcome or a transport error.
- `LtiUserData.get_or_create_by_parameters` and `store_lti_parameters` are not defined in `models.py`. They are modelled as a get-or-create and an upsert on the table, keyed by the user and the vary key of the filtered parameters. A created row holds the field default of `edx_lti_parameters`, the empty map (`models.py:16`). The get-or-create's own check that the row belongs to the launching user is modelled only through its `ValueError`. The get-or-create's exceptions are the `StoreFault` parameter. `store_lti_parameters` is modelled as never raising.
- `AnonymousRedirectTo`: the inherited `anonymous_redirect_to` returns `resolve('lti')` (`__init__.py:26`), and Django's `resolve` maps a URL path, not a view name. What it returns, and whether it raises `Resolver404` for the path `lti`, are not modelled; `Resolve("lti")` is an opaque stand-in that is handed to the redirect unchanged.
- `Dispatch`: only GET and POST reach `process_request` (`views.py:42-46`). Django's `View.dispatch` answers other HTTP methods itself, and the model does not carry the HTTP method, so every request is processed.
- `_get_lti_parameters_from_request` is modelled as failing only with `oauth2.Error`. An `AttributeError` raised anywhere in the logged-in pre-check is modelled as coming from the lookup.
- The `request` argument of the hook and the redirect callbacks is not passed. The hook sees only its keyword arguments, and its only modelled effect is logging a user in.
- `optional_lti_parameters` is modelled, but `views.py` never uses it to extend the hook's arguments, so neither does the model.
- Parameter values are strings. Multi-valued fields such as `roles` lists are not modelled.
- Grades are Dafny `real`s, with only their ordering modelled; floating-point representation is not modelled.
- `Message`: how Python's `str.format` writes the offending grade (`models.py:33`) is the parameter `render`, not a definition, because it depends on Python's float formatting. The model fixes only the text around it.
- The `custom_key` threading that `tests/test_signals.py` expects is not modelled. `signals.py` neither takes nor uses it.
- Logging is not modelled beyond which log line (info or exception) a grade failure writes. Also not modelled: the session's `save()`, the signal dispatch machinery, the CSRF and clickjacking decorators, URL configuration, migrations and packaging. The length limit on `custom_key` (400 in `models.py`, 190 after the migrations) is not modelled; keys are unbounded strings.
- Concurrent launches racing on the same record are not modelled. Each request is one sequential step on the `World`.
