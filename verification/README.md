# SuppliFIT core in Dafny

This project models the behavioural core of SuppliFIT, a supplement-subscription shop with
a React/Redux front end and a Django back end, and proves properties of that model. Every
operation is a pure function over immutable datatypes. Tables are sequences, money is an
exact `real`, and dates are integer day numbers. The clock, the browser's storage and the
identity service become parameters.

The model covers:

- **Session and tokens (front end).**
  - `Api` models the intercepted HTTP client: the request interceptor attaches the bearer credential; the response interceptor answers a 401 with one renewal and one retry.
  - `AuthSlice` models the `checkAuth`, `login`, `register` and `logout` thunks and the auth reducer.
  - `App` models `ProtectedRoute` and the `checkAuth` dispatched on mount.
  - `Session` strings these together into whole sessions.
  - The token store is two optional `localStorage` slots. The identity service is a script of answers, any of which may be a success, a 401 or another error. Page redirects are events in a log.
- **Subscriptions (back end).**
  - `Subscriptions` holds the record and its status enum.
  - `SubscriptionService` models cancel, renew, use a supplement, the expiry sweep and the active lookups.
  - `SubscriptionSerializer` models the date check and the defaulting of `create`.
- **Partner stores (back end).**
  - `PartnerStores` holds the record, its choices, bounds and defaults.
  - `Commission` models the three commission strategies and their dispatch.
  - `StoreFactory` models the per-type creators.
  - `StoreService` models the service over a store table.
  - `StoreSerializer` models the serializer's CNPJ check and validated data.
- **Front-end helpers.**
  - `Pagination` models the pagination bar of the supplement list.
  - `SubscriptionSlice` and `SupplementsSlice` model the two slices, plus the catalogue page's filter handler.
  - `RegisterForm` models the registration form check, including the e-mail pattern.
  - `SupplementFilters` models the filter form.
  - `SupplementCard` models the type badge.
  - `Testimonials` models the testimonial carousel.
- **Shared helpers.** `Wrappers` (`Option`, `Result`), `Seqs` (filter, map, order) and `Text` (whitespace, digits, lower case, substring search) are helpers.

## Behaviour worth knowing

Some consequences of the code are easy to miss; these lemmas state them:

- **Login and startup verification go through the intercepted client.**
  - A failed token request is subject to the 401 handling like any other call.
  - With no usable refresh token, a failed login removes the stored access token and redirects (`AuthSlice.FailedLoginWithoutRefreshToken`).
  - A failed re-login with a stored session spends the refresh token, and wipes the session when that renewal fails (`AuthSlice.FailedReLoginWipesSession`).
- **A 401 with no refresh token removes only the access token.** A stored but empty refresh token stays behind.
  - The invariant "both tokens or neither" therefore holds only while the identity service never issues an empty refresh token (`Session.RunKeepsPairing`).
  - With an empty refresh token it breaks (`Session.EmptyRefreshBreaksPairing`).
- **A failed profile request does not undo the token write.**
  - After a failed profile request during login, the issued tokens stay stored although the login is rejected (`AuthSlice.LoginProfileFailureKeepsTokens`).
- **No partner-store submission can validate.** The model requires a CNPJ of exactly 18 characters, and `validate_cnpj` requires exactly 14 digits (`StoreSerializer.NoCnpjPasses`, `StoreSerializer.NoSubmissionValidates`).
- **`update_store` writes more than it protects.**
  - It excludes `owner`, but `owner_id` is an attribute too, so an update can move a store to another owner (`StoreService.OwnerChangesThroughOwnerId`).
  - It writes any status text, unlike `change_store_status` (`StoreService.UpdateWritesAnyStatus`).
- **The premium commission is not monotone in the sale amount** (`Commission.PremiumNotMonotone`).
- **Category 0 reads back as "all categories".** The category select shows `filters.category || ''`, so category id 0 reads back that way (`SupplementFilters.CategoryRoundTrip`).
- **A click on the carousel's current dot sets the direction backward** (`Testimonials.SameDotSlidesBack`).
- **Pending actions treat a stale error differently in the two slices.**
  - The subscription slice's pending actions keep a stale error on screen (`SubscriptionSlice.PendingKeepsStaleError`).
  - The supplements slice's pending actions clear it (`SupplementsSlice.Reduce`).

## Model

| member | source | states |
|---|---|---|
| Api.AttachBearer | frontend/src/services/api.ts:15-24 | A request carries `Bearer <t>` exactly when a truthy access token `t` is stored. Otherwise it goes out unchanged, and no other part of the request is touched. |
| Api.Call | frontend/src/services/api.ts:27-72 | One call through the client transmits once or twice, and the first transmission is the intercepted request. It makes at most one refresh call. When there are two transmissions, the second is marked retried and exactly one refresh call was made. A request already marked retried is sent once, never renews and leaves the store alone. Every transmission goes to the same endpoint with the same body. A successful result is one of the server's answers. |
| Api.OnError | frontend/src/services/api.ts:29-71 | Anything but a 401 on a request not yet retried is rejected as it is, with nothing stored, sent or renewed. Otherwise the handler sends at most one more transmission. That transmission is marked retried and comes with exactly one refresh call. |
| Api.PassThrough | frontend/src/services/api.ts:28-33 | A first answer that is not a 401, or any answer to a request already retried, settles the call with that answer. The store is untouched, nothing is renewed and nobody is redirected. |
| Api.UnauthorizedWithoutRefreshToken | frontend/src/services/api.ts:37-44 | A 401 with no usable refresh token removes the access token, redirects to `/login` and rejects with the original error. No refresh call is made, and with no refresh token at all the store ends empty. |
| Api.RenewalSucceeds | frontend/src/services/api.ts:47-60 | A successful renewal overwrites only the access token, and the refresh call carries the stored refresh token. The request is sent once more, marked retried and carrying the new token as bearer. The call settles with the retry's answer, and a 401 on the retry is rejected as it is. |
| Api.RenewalFails | frontend/src/services/api.ts:61-66 | A failed renewal removes both tokens, redirects to `/login` and rejects with the refresh error. |
| Api.CallKeepsPairing | frontend/src/services/api.ts:33-67 | A store holding both tokens, or neither, still does after any call, whatever the server answers. |
| Api.RefreshTokenNeverWritten | frontend/src/services/api.ts:37-66 | After a call the refresh slot holds what it held before, or the whole store is empty. |
| App.ProtectedRoute | frontend/src/App.tsx:26-38 | While loading it shows the placeholder, whatever the state says about the user. Once loaded, it shows the children exactly when someone is authenticated, and otherwise redirects to `/login`. |
| App.Mount | frontend/src/App.tsx:43-45 | On mount the app runs `checkAuth` from the initial state. Protected routes then show their children exactly when the check resolved, and redirect exactly when it was rejected. |
| App.NoRedirectBeforeFirstSettlement | frontend/src/App.tsx:29-35 | Starting from a loading state, no sequence of actions in which nothing settles leads a protected route to redirect. |
| App.MountWithoutToken | frontend/src/features/auth/authSlice.ts:48-52 | Mounting with no truthy access token redirects to `/login` without any network call. |
| AuthSlice.Reduce | frontend/src/features/auth/authSlice.ts:131-187 | `clearError` clears only the error. The pending cases set `loading` and keep the error. `checkAuth` and `login` fulfilled set the user, authenticate and clear the error. `register` fulfilled clears the error and keeps the session. `checkAuth` rejected logs out with the reason. `login` and `register` rejected write only `loading` and the reason. `logout` fulfilled resets only the user and `isAuthenticated`. `logout` pending and rejected change nothing. |
| AuthSlice.Reason | frontend/src/features/auth/authSlice.ts:61-64 | A rejection reason is the error body when there is a truthy one, and otherwise the fallback, so it is never empty. |
| AuthSlice.CheckAuthThunk | frontend/src/features/auth/authSlice.ts:44-67 | With no truthy access token it rejects at once, with no network call and no change to the store. Otherwise it first sends the verify request with the token. Any rejection after that leaves the store empty. It resolves exactly when both the verify call and the profile call succeed, and then carries the profile and the store the profile call left. |
| AuthSlice.LoginThunk | frontend/src/features/auth/authSlice.ts:70-91 | The token request goes first, through the client. If that call fails, the thunk rejects with the call's store left as the interceptor left it. A resolution carries a profile. |
| AuthSlice.RegisterThunk | frontend/src/features/auth/authSlice.ts:94-104 | The first transmission carries the form. It resolves exactly when the POST succeeds, with the created user. Otherwise it rejects with the error body, or 'Erro ao registrar' when that is falsy. The store is the one the call left. |
| AuthSlice.LogoutThunk | frontend/src/features/auth/authSlice.ts:107-119 | Logout clears both tokens with no network call and always resolves. |
| AuthSlice.InitialStateIsLoading | frontend/src/features/auth/authSlice.ts:121-126 | The initial state has no user, is not authenticated, is loading, and has no error. |
| AuthSlice.CheckAuthSucceeds | frontend/src/features/auth/authSlice.ts:54-60 | A verified token and a served profile resolve with that profile and keep the store. The state ends authenticated with the profile and no error. |
| AuthSlice.RegisterSucceeds | frontend/src/features/auth/authSlice.ts:97-99 | A created user resolves the thunk with that user and keeps the store. The state ends not loading with no error and the same session. |
| AuthSlice.RegisterRejected | frontend/src/features/auth/authSlice.ts:100-101 | A refusal other than a 401 rejects with the error body, or 'Erro ao registrar' when that is falsy. The state records that reason and keeps the session. |
| AuthSlice.CheckAuthWithoutToken | frontend/src/features/auth/authSlice.ts:48-52 | With no truthy access token, `checkAuth` rejects with 'Não autenticado' before any network call and ends logged out, not loading. |
| AuthSlice.CheckAuthFailureLogsOut | frontend/src/features/auth/authSlice.ts:61-64 | A failed check after a token was found removes both tokens and leaves the user logged out, not loading. |
| AuthSlice.LoginSucceeds | frontend/src/features/auth/authSlice.ts:74-86 | Accepted credentials store the issued pair, and the profile request carries the new access token. The state ends authenticated with the profile and no error. |
| AuthSlice.LoginProfileFailureKeepsTokens | frontend/src/features/auth/authSlice.ts:77-88 | If the profile request fails after the token write, the login rejects but both issued tokens stay stored. |
| AuthSlice.LoginRejectedKeepsSession | frontend/src/features/auth/authSlice.ts:165-168 | `login.rejected` changes only `loading` and `error`. |
| AuthSlice.FailedLoginWithoutRefreshToken | frontend/src/features/auth/authSlice.ts:74-88 | A 401 on the token request with no usable refresh token removes the access token and redirects, without a refresh call. |
| AuthSlice.FailedReLoginWipesSession | frontend/src/features/auth/authSlice.ts:74-88 | A 401 on the token request with a session stored spends the refresh token. When that renewal fails, the stored session is wiped. |
| AuthSlice.LogoutLogsOut | frontend/src/features/auth/authSlice.ts:184-187 | Logout clears the store and sets `isAuthenticated` false and `user` null, leaving `loading` and `error` as they were. |
| AuthSlice.RegisterNeverAuthenticates | frontend/src/features/auth/authSlice.ts:171-181 | No stage of `register` changes who is logged in. |
| AuthSlice.OnlyFulfilmentAuthenticates | frontend/src/features/auth/authSlice.ts:137-187 | Only the fulfilment of `checkAuth` or `login` logs a user in. |
| Session.CheckKeepsPairing | frontend/src/features/auth/authSlice.ts:44-67 | `checkAuth` leaves a store holding both tokens or neither, and consumes only script replies. |
| Session.SignInKeepsPairing | frontend/src/features/auth/authSlice.ts:70-91 | `login` leaves the tokens paired when every issued refresh token is non-empty. |
| Session.StepKeepsPairing | frontend/src/features/auth/authSlice.ts:44-119 | Each command of the front end keeps the tokens paired, given that issued refresh tokens are not empty. |
| Session.RunKeepsPairing | frontend/src/features/auth/authSlice.ts:44-119 | Between commands the store holds both tokens or neither, for every command sequence, as long as the identity service never issues an empty refresh token. |
| Session.SignOutClears | frontend/src/features/auth/authSlice.ts:110-114 | Signing out from any session ends logged out with an empty store. |
| Session.EmptyRefreshBreaksPairing | frontend/src/services/api.ts:37-44 | An issued pair with an empty refresh token breaks the pairing: a later 401 leaves the refresh token without an access token. |
| Subscriptions.Code | backend/subscription_plans/models/subscription.py:13-44 | Each status is stored as a non-empty value that fits the 10-character column. |
| Subscriptions.ParseStatus | backend/subscription_plans/models/subscription.py:18-23 | A stored value reads back as a status only when it is that status's code. |
| Subscriptions.StatusCodesRoundTrip | backend/subscription_plans/models/subscription.py:13-23 | Every status reads back from its code as itself. |
| SubscriptionService.Cancel | backend/subscription_plans/services/subscription_service.py:25-29 | Cancelling sets the status to cancelled and turns renewal off, and nothing else changes. |
| SubscriptionService.CancelIdempotent | backend/subscription_plans/services/subscription_service.py:25-29 | Cancelling twice is cancelling once. |
| SubscriptionService.Renew | backend/subscription_plans/services/subscription_service.py:44-61 | Renewal is refused exactly when renewal is off. Otherwise the new subscription starts at the later of the old end and today and ends 30 days later. It is active with renewal on and has the same user and plan, with the plan's monthly supplements and price. |
| SubscriptionService.RenewIn | backend/subscription_plans/services/subscription_service.py:52-63 | A renewal appends one row and leaves every existing row, the renewed one included, unchanged. A refused renewal adds nothing. |
| SubscriptionService.CancelledCannotRenew | backend/subscription_plans/services/subscription_service.py:25-45 | A cancelled subscription cannot be renewed. |
| SubscriptionService.RenewalsAreContiguous | backend/subscription_plans/services/subscription_service.py:48-49 | Renewing a renewal before its period ends continues it without gap or overlap. |
| SubscriptionService.UseSupplement | backend/subscription_plans/services/subscription_service.py:109-115 | Using a supplement is refused exactly when none remain. Otherwise exactly one fewer remains and nothing else changes, whatever the status. |
| SubscriptionService.UsesAreBoundedByRemaining | backend/subscription_plans/services/subscription_service.py:109-113 | `k` uses in a row succeed exactly when `k` does not exceed the remaining count, and leave the difference. |
| SubscriptionService.ExpireOverdue | backend/subscription_plans/services/subscription_service.py:125-128 | Exactly the active subscriptions that ended before today become expired, and every other row stays as it was. |
| SubscriptionService.CheckSubscriptionsToExpire | backend/subscription_plans/services/subscription_service.py:125-138 | The warning list holds exactly the rows of the updated table that are active and end within the next seven days. None of the rows just expired is on it. |
| SubscriptionService.SweepIsIdempotent | backend/subscription_plans/services/subscription_service.py:125-128 | After the sweep no overdue subscription remains, and a second sweep changes nothing. |
| SubscriptionService.ActiveSubscriptions | backend/subscription_plans/services/subscription_service.py:66-73 | It returns exactly the active subscriptions. |
| SubscriptionService.UserActiveSubscription | backend/subscription_plans/services/subscription_service.py:76-93 | It returns none exactly when the user has no active subscription that ends today or later. Otherwise it returns such a subscription, created no earlier than any other. |
| SubscriptionSerializer.Validate | backend/subscription_plans/serializers/subscription_plans_serializers.py:67-87 | Validation rejects, on `end_date`, exactly when both dates are given and the end is not after the start. Accepted input is returned unchanged. |
| SubscriptionSerializer.FillFromPlan | backend/subscription_plans/serializers/subscription_plans_serializers.py:55-63 | The remaining count and the price come from the plan only when absent. Values the client sent are kept, and nothing else changes. |
| SubscriptionSerializer.FillFromPlanIdempotent | backend/subscription_plans/serializers/subscription_plans_serializers.py:58-63 | Filling twice is filling once. |
| SubscriptionSerializer.Instantiate | backend/subscription_plans/models/subscription.py:39-67 | An absent status defaults to pending and an absent renewal flag to on. The write fails exactly when a non-nullable column has no value. |
| SubscriptionSerializer.Create | backend/subscription_plans/serializers/subscription_plans_serializers.py:44-65 | Creation succeeds exactly when both dates are given, with the count and the price filled from the plan. A subscription created without a status or renewal flag is pending with renewal on. |
| SubscriptionSerializer.ValidatedPeriodIsProper | backend/subscription_plans/serializers/subscription_plans_serializers.py:81-87 | A subscription created from validated input ends after it starts. |
| PartnerStores.ChoicesFitColumns | backend/partner_stores/models.py:6-17 | Every status and type choice fits its 20-character column, and 'active' and 'inactive' are not statuses. The default status and type are among the choices, and the default rate fits the 5-digit, 4-place column. |
| Commission.Regular | backend/partner_stores/services/commission_strategy.py:20-21 | The regular commission is never negative for a non-negative sale and rate, and it is zero when either is zero. |
| Commission.Premium | backend/partner_stores/services/commission_strategy.py:30-39 | For every rate, the premium commission is the regular commission up to 5000, 90% of it above 5000 up to 10000, and 80% of it above 10000. |
| Commission.Enterprise | backend/partner_stores/services/commission_strategy.py:49-54 | The enterprise commission never exceeds 5000 or the regular commission, and it is one of the two. |
| Commission.CommissionFor | backend/partner_stores/services/commission_strategy.py:70-73 | A 'premium' store pays the premium commission on its own rate and an 'enterprise' store the capped one. Every other type pays the regular commission. |
| Commission.StrategyFor | backend/partner_stores/services/commission_strategy.py:59-67 | Premium is chosen exactly for 'premium' and enterprise exactly for 'enterprise'. Every other string is charged as regular. |
| Commission.PremiumBetweenZeroAndRegular | backend/partner_stores/services/commission_strategy.py:30-39 | For a non-negative sale and rate, the premium commission lies between zero and the regular commission. |
| Commission.TierLimitsFallBelow | backend/partner_stores/services/commission_strategy.py:32-37 | Exactly 5000 pays the full rate and exactly 10000 pays 90% of it. |
| Commission.PremiumNotMonotone | backend/partner_stores/services/commission_strategy.py:32-39 | For any positive rate the commission drops just above 5000 and just above 10000. |
| Commission.UnknownTypeChargedAsRegular | backend/partner_stores/services/commission_strategy.py:66-67 | A store type outside the choices is charged exactly the regular commission. |
| StoreFactory.FirstMissing | backend/partner_stores/services/store_factory.py:27-32 | It reports a required key missing from the data exactly when there is one. |
| StoreFactory.CreateStore | backend/partner_stores/services/store_factory.py:8-74 | An unknown type fails with its message, and a missing key fails with a `KeyError` naming a missing required key. Creation succeeds exactly for a known type with every key present. The new store is pending, belongs to the owner, copies the contact data, and defaults the description to ''. Rate and perks are 0.05 / none for regular, 0.03 / featured for premium, and 0.02 / featured and priority support for enterprise. |
| StoreFactory.CreatedStoresAreWellFormed | backend/partner_stores/services/store_factory.py:34-73 | Every created store has a status and a type among the choices and a rate that fits its column. |
| StoreFactory.CreatedStoreCommission | backend/partner_stores/services/commission_strategy.py:59-73 | A new store pays 5% as regular. As premium it pays 3%, 2.7% above 5000 and 2.4% above 10000. As enterprise it pays 2%, capped at 5000. |
| StoreService.CreateFromData | backend/partner_stores/services/store_service.py:11-17 | The type comes from 'store_type', 'regular' when absent. Without that key, creation succeeds exactly when every required key is present. |
| StoreService.CreateInto | backend/partner_stores/services/store_service.py:11-17 | The factory's failures pass through unchanged. A store whose CNPJ some row already holds fails with an IntegrityError on 'cnpj', because the column is unique. Otherwise the new store is appended, and ids and CNPJs stay unique. |
| StoreService.SameCnpjTwiceIsRefused | backend/partner_stores/models.py:24-29 | Creating a second store from the same data fails with an IntegrityError on 'cnpj'. |
| StoreService.UntypedDataCreatesRegular | backend/partner_stores/services/store_service.py:16-17 | Data without 'store_type' creates a pending regular store with rate 5%, not featured and without priority support. |
| StoreService.IndexOf | backend/partner_stores/services/store_service.py:25-25 | The lookup finds a row with the id exactly when one exists. |
| StoreService.ApplyUpdate | backend/partner_stores/services/store_service.py:27-31 | Every writable key in the data writes its value to its attribute: the six text fields, status and store type as given, the commission rate, both flags, and the owner through 'owner_id'. A field changes only when its key is in the data. The save stamps `updated_at` and keeps the id and the creation time. |
| StoreService.IgnoredKeysChangeNothing | backend/partner_stores/services/store_service.py:27-29 | Keys outside the writable attributes change nothing but the timestamp. |
| StoreService.UpdateIsIdempotent | backend/partner_stores/services/store_service.py:27-31 | Applying the same update twice is applying it once. |
| StoreService.OwnerChangesThroughOwnerId | backend/partner_stores/services/store_service.py:28-29 | 'owner' is ignored, but 'owner_id' moves the store to another owner. |
| StoreService.UpdateWritesAnyStatus | backend/partner_stores/services/store_service.py:27-29 | The update does not check the status against the choices. |
| StoreService.UpdateStore | backend/partner_stores/services/store_service.py:19-34 | With no store of that id, the update returns none and leaves the table unchanged. It fails with an IntegrityError on 'cnpj' exactly when the updated store would hold a CNPJ another row holds; only `DoesNotExist` is caught. Otherwise the updated store is written back in its own row, and ids and CNPJs stay unique. |
| StoreService.TakingAnotherCnpjIsRefused | backend/partner_stores/services/store_service.py:26-31 | An update that gives one store another store's CNPJ fails with an IntegrityError. |
| StoreService.UpdateKeepingCnpjSaves | backend/partner_stores/services/store_service.py:24-32 | An update without a 'cnpj' key always saves the store it names. |
| StoreService.ChangeStoreStatus | backend/partner_stores/services/store_service.py:36-50 | It saves exactly when the id exists and the status is a choice, and then sets that status. Otherwise the table is unchanged. Ids and CNPJs stay unique. |
| StoreService.StatusChangeIsStatusUpdate | backend/partner_stores/services/store_service.py:41-47 | A valid status change is the update of the 'status' key alone, and it never meets the CNPJ constraint. |
| StoreService.StoresByOwner | backend/partner_stores/services/store_service.py:52-57 | It returns exactly the stores of the owner. |
| StoreService.SearchStores | backend/partner_stores/services/store_service.py:59-68 | It returns exactly the stores whose name, CNPJ or address contains the query, ignoring case. |
| StoreService.EmptyQueryFindsEverything | backend/partner_stores/services/store_service.py:64-68 | The empty query lists every store. |
| StoreService.SaleCommission | backend/partner_stores/services/store_service.py:70-79 | It returns none exactly when no store has the id, and otherwise that store's strategy commission. |
| StoreSerializer.ValidateCnpj | backend/partner_stores/serializers.py:22-27 | A value is accepted exactly when it has 14 characters, all digits, and is returned unchanged. A wrong length reports the length message even when the value also has non-digits. |
| StoreSerializer.NoCnpjPasses | backend/partner_stores/models.py:24-29 | Every CNPJ `validate_cnpj` accepts breaks the model's 18-character rule, so no CNPJ passes the field. |
| StoreSerializer.Errors | backend/partner_stores/serializers.py:7-27 | Only writable fields have errors. A missing or empty required field, a failing CNPJ or an unknown status is in error. |
| StoreSerializer.ValidatedData | backend/partner_stores/serializers.py:7-20 | The validated data is exactly the submitted writable fields, with their values. |
| StoreSerializer.Validate | backend/partner_stores/serializers.py:4-27 | Validation fails exactly when some field is in error, and otherwise yields the validated data. |
| StoreSerializer.NoSubmissionValidates | backend/partner_stores/serializers.py:22-27 | Every submission fails, with 'cnpj' in error. |
| StoreSerializer.SerializedCreationIsRegular | backend/partner_stores/serializers.py:7-19 | 'store_type' is not a serializer field, so creation from validated data yields a pending regular store at 5%. |
| Pagination.TotalPages | frontend/src/components/supplements/SupplementList.tsx:22-26 | It is the fewest pages of the page size that hold every item. |
| Pagination.BarShownBeyondOnePage | frontend/src/components/supplements/SupplementList.tsx:135-152 | With twelve items a page, the bar appears under a loaded, error-free, non-empty list exactly when there are more than twelve items. |
| Pagination.Window | frontend/src/components/supplements/SupplementList.tsx:43-48 | For `1 <= cur <= total`: `1 <= start <= cur <= end <= total` and the window spans `min(5, total)` pages. |
| Pagination.Run | frontend/src/components/supplements/SupplementList.tsx:69-80 | The numbered run is one page item per number from start to end, active exactly at the current page and disabled while loading. |
| Pagination.Head | frontend/src/components/supplements/SupplementList.tsx:51-66 | Page 1 is emitted before the window exactly when the window starts after 1. The leading ellipsis is emitted exactly when it starts after 2. |
| Pagination.Tail | frontend/src/components/supplements/SupplementList.tsx:83-98 | The last page is emitted after the window exactly when the window ends before it. The trailing ellipsis is emitted exactly when the window ends before the page prior to the last. |
| Pagination.Bar | frontend/src/components/supplements/SupplementList.tsx:34-107 | The bar opens with Prev targeting `max(1, cur - 1)`, disabled at page 1 or while loading. It closes with Next targeting `min(total, cur + 1)`, disabled at the last page or while loading. |
| Pagination.BarNumbers | frontend/src/components/supplements/SupplementList.tsx:51-98 | The page numbers on the bar are 1 (when the window does not start there), then `start..end`, then the last page (when the window does not end there). They are strictly increasing. |
| Pagination.OnlyCurrentIsActive | frontend/src/components/supplements/SupplementList.tsx:56-92 | A numbered item is active exactly when it is the current page. |
| SubscriptionSlice.MarkCancelled | frontend/src/features/subscription/subscriptionSlice.ts:191-195 | Rows with the id are marked cancelled and every other row is kept, at the same length. |
| SubscriptionSlice.Reduce | frontend/src/features/subscription/subscriptionSlice.ts:122-201 | Starting or failing a request never touches the three lists. Each answer rewrites only the list its request owns, ends the load and clears the error; cancelling keeps the length of the subscription list. `clearError` clears the error alone. |
| SubscriptionSlice.PendingKeepsStaleError | frontend/src/features/subscription/subscriptionSlice.ts:130-132 | A pending request keeps an earlier error. |
| SubscriptionSlice.CreatedGoesLast | frontend/src/features/subscription/subscriptionSlice.ts:175-179 | A created subscription is appended last, with earlier entries kept in order. |
| SubscriptionSlice.CancelMarksOnlyItsRows | frontend/src/features/subscription/subscriptionSlice.ts:189-197 | Cancelling marks exactly the rows with the id and touches no other field, and repeating it changes nothing. |
| SubscriptionSlice.RejectionKeepsData | frontend/src/features/subscription/subscriptionSlice.ts:138-141 | A rejection leaves every list as it was. |
| SupplementsSlice.InitialStateIsEmpty | frontend/src/features/supplements/supplementsSlice.ts:20-28 | The slice starts with empty lists, no supplement, not loading, no error, count 0 and page 1. |
| SupplementsSlice.Reduce | frontend/src/features/supplements/supplementsSlice.ts:71-122 | Starting or failing a request never touches the data fields; starting clears the error. Each answer fills only the fields its request owns, ends the load, and keeps both the error and the page. `clearSupplement` and `setCurrentPage` each change one field. |
| SupplementsSlice.FilterChange | frontend/src/pages/supplements/SupplementsPage.tsx:36-39 | A filter change starts a fetch and resets the page to 1. |
| SupplementsSlice.AnswersKeepPage | frontend/src/features/supplements/supplementsSlice.ts:82-122 | No server answer, in any number, moves the current page. |
| SupplementsSlice.FilterChangeThenList | frontend/src/pages/supplements/SupplementsPage.tsx:36-39 | After a filter change and its answer, the page is 1 and the list and count are the new ones. |
| SupplementsSlice.FulfilmentKeepsError | frontend/src/features/supplements/supplementsSlice.ts:82-90 | A fulfilment does not clear the error; only the pending action before it does. |
| RegisterForm.TestEmailPattern | frontend/src/pages/auth/Register.tsx:35-35 | The scan answers true exactly when `\S+@\S+\.\S+` matches somewhere in the text. |
| RegisterForm.Messages | frontend/src/pages/auth/Register.tsx:29-49 | Every problem is shown with its own message, one message per problem, in order. |
| RegisterForm.CheckOrderIsComplete | frontend/src/pages/auth/Register.tsx:29-49 | Every check is listed once, in the order the code runs them. |
| RegisterForm.ValidateForm | frontend/src/pages/auth/Register.tsx:26-53 | The errors are exactly the listed checks that fail, at most one per check. |
| RegisterForm.ValidateFormChecks | frontend/src/pages/auth/Register.tsx:26-53 | A check's error appears exactly when it fails, at most once, and the errors keep check order. The password check counts UTF-16 code units, as `password.length` does. |
| RegisterForm.BlankEmailIsOnlyRequired | frontend/src/pages/auth/Register.tsx:33-37 | A blank e-mail reports only that it is required. |
| RegisterForm.ValidIffNoErrors | frontend/src/pages/auth/Register.tsx:26-52 | The form is valid exactly when the username and e-mail are not blank, the pattern matches the e-mail, the password has at least 6 UTF-16 code units and equals its confirmation, and the terms are accepted. |
| RegisterForm.InitialFormErrors | frontend/src/pages/auth/Register.tsx:7-14 | The untouched form reports the username, e-mail, password length and terms errors. |
| RegisterForm.PatternExamples | frontend/src/pages/auth/Register.tsx:35-35 | The pattern is unanchored, and an address with nothing after the '.' fails. |
| RegisterForm.PasswordLengthCountsCodeUnits | frontend/src/pages/auth/Register.tsx:39-41 | Password length is counted in UTF-16 code units: three characters outside the Basic Multilingual Plane pass the length check, and three accented Latin letters fail it. |
| Text.Utf16Length | frontend/src/pages/auth/Register.tsx:39 | The JavaScript length of a string lies between its character count and twice that. It equals the character count when every character is in the Basic Multilingual Plane, and twice the count when none is. |
| SupplementFilters.Apply | frontend/src/components/supplements/SupplementFilters.tsx:28-30 | A change sets exactly the named key, and every other key keeps its value. |
| SupplementFilters.ChangesCompose | frontend/src/components/supplements/SupplementFilters.tsx:28-30 | A later change of a key overrides an earlier one, and changes of different keys commute. |
| SupplementFilters.UntouchedKeyKeepsValue | frontend/src/components/supplements/SupplementFilters.tsx:28-30 | A key no change names keeps its value through any sequence of changes. |
| SupplementFilters.Reset | frontend/src/components/supplements/SupplementFilters.tsx:33-41 | A reset writes no category or type, empty brand and search, and availability on, whatever came before. |
| SupplementFilters.ResetRestoresInitial | frontend/src/components/supplements/SupplementFilters.tsx:14-41 | The literal the reset writes equals the initial state, so after any changes a reset restores the initial filters, and a second reset changes nothing. |
| SupplementFilters.ParseCategory | frontend/src/components/supplements/SupplementFilters.tsx:68-68 | The empty option means no category, and every other option means a category. |
| SupplementFilters.CategoryValue | frontend/src/components/supplements/SupplementFilters.tsx:67-67 | The shown value is always digit text or empty, the form of the select's option values. |
| SupplementFilters.CategoryRoundTrip | frontend/src/components/supplements/SupplementFilters.tsx:67-70 | Every category id but 0 reads back as itself, and 0 reads back as "all categories". |
| SupplementFilters.ParseType | frontend/src/components/supplements/SupplementFilters.tsx:85-85 | The empty option means no type, and any other value passes through. |
| SupplementFilters.TypeRoundTrip | frontend/src/components/supplements/SupplementFilters.tsx:84-85 | The type select and its parse are inverse, except for the empty type. |
| SupplementFilters.SwitchRoundTrip | frontend/src/components/supplements/SupplementFilters.tsx:105-106 | The switch shows what was last written to it, and it starts on. |
| SupplementCard.CodesAreDistinct | backend/supplements/models/supplement.py:24-30 | No two supplement types share a code. |
| SupplementCard.CardVariant | frontend/src/components/supplements/SupplementCard.tsx:20-41 | The variant is 'primary' exactly for 'other' and for codes outside the table. |
| SupplementCard.CardLabel | frontend/src/components/supplements/SupplementCard.tsx:43-54 | A code outside the table is labelled 'Outro'. |
| SupplementCard.CardMatchesDetailPage | frontend/src/pages/supplements/SupplementDetailPage.tsx:34-71 | The card and the detail page give every code the same variant and label. |
| SupplementCard.BadgeCoversEveryType | backend/supplements/models/supplement.py:24-30 | Every back-end type is labelled with its display name. Only 'other' falls back to 'primary', and the other five types get five distinct variants. |
| SupplementCard.Badges | frontend/src/components/supplements/SupplementCard.tsx:80-85 | The type badge comes first, and 'Indisponível' is shown exactly when the supplement is unavailable. |
| Testimonials.InitialIsValid | frontend/src/components/Testimonials.tsx:133-134 | The carousel starts on the first testimonial, sliding forward. |
| Testimonials.Advance | frontend/src/components/Testimonials.tsx:136-143 | The timer moves to the next testimonial, wrapping after the last, and slides forward. |
| Testimonials.DotClick | frontend/src/components/Testimonials.tsx:145-148 | A dot shows its testimonial, sliding forward exactly when it lies after the current one. |
| Testimonials.Run | frontend/src/components/Testimonials.tsx:194-199 | Under any sequence of ticks and dot clicks, the index stays within the three testimonials. |
| Testimonials.ThreeTicksCycle | frontend/src/components/Testimonials.tsx:139-139 | Three ticks come back to the same testimonial. |
| Testimonials.SameDotSlidesBack | frontend/src/components/Testimonials.tsx:145-148 | Clicking the current dot keeps the testimonial and sets the direction backward. |

## Left out

- **Browser and network.** The model does not cover real I/O: axios transport, `localStorage`, `window.location` and the `process.env` base URL. The token store is two option slots, the identity service is a script of answers, and redirects are logged events.
- **The default `Authorization` header.** `api.defaults.headers.common['Authorization']` is written at login and deleted at logout, and the model does not track it. A request's own `authorization` field stands for whatever header it already carries.
- **The order of the `_retry` mutation.** The interceptor sets `_retry` on the original request before reading storage. In the model the mark appears on the retried transmission, and the original request is not kept beyond the call.
- **Concurrency.** The model leaves out overlapping requests, the missing single-flight renewal, thunk cancellation and the timer's re-arming on every change of `current`. Requests run one at a time, and the timer is a `Tick` event.
- **JWT contents.** `jwtDecode` is imported but unused, and tokens are opaque strings.
- **Server error bodies.** A rejected thunk's payload is `error.response?.data`, which may be an object. The model keeps it as a string, with "" standing for an absent or falsy body.
- **The cancel response's id.** In `cancelSubscription` the response body is spread over the id, so a body carrying its own `id` would override it. The model takes the payload's id as given.
- **The thunks of the two data slices.** Only the subscription and supplements reducers are modelled; their network thunks are not. The supplements reducer is modelled on its own, because `store.ts` never registers it.
- **Django itself.** The ORM, transactions, querysets, `auto_now` clocks, viewsets, URLs, admin, signals, the test factories and the database-connection singleton are replaced by sequences and explicit `now` and `today` parameters. `updated_at` of a subscription is not modelled.
- **Ordering.** The `ordering = ['-created_at']` of both models does not change any result the model states. List results keep table order.
- **Decimal arithmetic.** Amounts are exact `real`s. Python's 28-digit `Decimal` context and the column's rounding of stored rates are ignored.
- **Text semantics.** The model does not cover Unicode or JavaScript prototype corner cases:
  - CNPJ digits are ASCII '0'–'9', whereas Python's `isdigit` also accepts other Unicode digits.
  - Case-insensitive search folds only ASCII letters.
  - `typeLabels` lookups treat inherited `Object.prototype` keys as absent.
  - The e-mail pattern is matched on characters, not UTF-16 code units. Both readings give the same answer, because both halves of a surrogate pair are non-space.
- **Whitespace trimming.** DRF trims the whitespace of string fields before validating them. The model checks the submitted text as it is.
- StoreSerializer.Errors: the e-mail syntax, the uniqueness of the CNPJ and the existence of the owner are not checked, because they need the e-mail validator and the database. Its contract states only which conditions put a field in error, not that nothing else does.
- StoreService.ApplyUpdate: three update cases are left out.
  - The 'id' and 'pk' keys are left out, because writing them would re-key or duplicate the row.
  - So are model attributes that are methods.
  - A value of the wrong kind for its attribute, which the source assigns and the save then coerces or rejects, is skipped.
- StoreService.UpdateStore: it assumes what the primary key and the unique CNPJ column guarantee, namely that no two stores share an id or a CNPJ.
- StoreService.ChangeStoreStatus: it assumes what the primary key guarantees, namely that no two stores share an id.
- StoreService.CreateInto: it assumes what the table guarantees, namely unique ids and CNPJs, and takes the fresh id the database would assign as a parameter.
- StoreFactory.CreateStore: the factory alone does not see the table, so the IntegrityError raised when `objects.create` meets a CNPJ already stored is stated by StoreService.CreateInto, not here.
- StoreService.CreateFromData: like the factory, it does not see the table; the refusal of a duplicate CNPJ is stated by StoreService.CreateInto.
- SubscriptionService.UserActiveSubscription: among subscriptions created at the same instant, which one `latest('created_at')` picks is not stated.
- SupplementFilters.ParseCategory: only the select's own options are parsed, which are '' and decimal category ids. `Number()` of any other text, `NaN` included, is not modelled.
- Pagination.TotalPages: it requires a positive page size, which the list's default of 12 and its callers always give.
- RegisterForm.TestEmailPattern: the pattern is decided by its own scan over '@' and '.' positions, not by a general regular-expression engine.
