# OAuthWebViewClient navigation monitor, modelled in Dafny

ownCloud's Android client signs in through OAuth2. The login page runs in a
`WebView`. `OAuthWebViewClient` watches that view's navigation callbacks and
does three things:

- It waits for the page that finishes on the registered redirect URI, which is
  any URL that starts with the configured target. It hides the view and hands
  that URI once to the authentication activity. The hand-off is posted to a
  `Handler`, and the activity is held through a weak reference.
- It reloads a page whose load failed. It remembers the last reloaded URL in
  one slot shared by all URLs. A failure of the URL held in the slot falls
  back to the browser's default error handling. A failure of any other URL,
  or any failure after a page finish, reloads again.
- It decides a TLS error. The client proceeds if the server's certificate is
  already in the known-servers store. Otherwise it asks the user through the
  untrusted-certificate dialog.

The project has three files.

- `wrappers.dfy`: the `Option` type. It stands for nullable references.
- `oauth_spec.dfy`, module `OAuthSpec`: the client and its surroundings as one
  value, `Snapshot`. The snapshot holds the target prefix, the reload slot,
  the capture flag, whether a handler exists, and what the weak listener
  reference yields. It also holds the commands issued so far (`Command`), the
  queue of posted deliveries, and the calls the listener received. There is
  one function per callback, from the old snapshot to the new one. `Event`,
  `Step` and `Run` describe any sequence of callbacks. The lemmas are about
  such sequences.
- `oauth_client.dfy`, module `OAuthClient`: class `OAuthWebViewClient` with
  the fields the callbacks update in place. The constructor establishes
  `Valid()` in the state `OAuthSpec.Init` describes. Each state-changing
  method keeps `Valid()` and ends in the state that the function of the same
  name in `OAuthSpec` computes from the state before the call. `GetTargetUrl`
  only reads the target.

Collaborators the model cannot see become parameters:

- the certificate factory: `seq<bv8> -> Option<Cert>`, where `None` means it
  threw `CertificateException`;
- the known-servers lookup: `Cert -> StoreAnswer`, which is `Known`, `Unknown`
  or `Thrown`;
- the garbage collector, which clears the weak listener reference:
  `CollectListener`;
- the handler's looper, which runs one posted runnable: `RunNextPosted`.

Three behaviours of the code are easy to misread; the model follows the code:

- The initial target `"fake://url.to.be.set"` (`OAuthWebViewClient.java`
  line 75) is a real prefix, not one that can never match. A finishing URL
  that starts with it is captured.
- `onReceivedHttpAuthRequest` passes neither host nor realm to the dialog
  (`createAuthenticationDialog(view, handler)`, line 203), so
  `ShowAuthDialog` carries neither.
- The reload slot is one slot for all URLs (line 112), and any page finish
  empties it (line 125).

## Model

| member | source | states |
|---|---|---|
| OAuthSpec.StartsWith | src/com/owncloud/android/authentication/OAuthWebViewClient.java:127 | `startsWith` is the sequence-prefix test: true exactly when the prefix is no longer than the URL and equals its first characters. An empty target prefix matches every URL. |
| OAuthSpec.Init | src/com/owncloud/android/authentication/OAuthWebViewClient.java:70-79 | The state after construction satisfies the client invariant. Nothing has been posted or delivered yet. |
| OAuthSpec.SetTargetUrl | src/com/owncloud/android/authentication/OAuthWebViewClient.java:85-87 | The target becomes the given string and no other part of the state changes. |
| OAuthSpec.OnPageStarted | src/com/owncloud/android/authentication/OAuthWebViewClient.java:90-94 | Issues exactly one ClearCache and changes no state. |
| OAuthSpec.OnFormResubmission | src/com/owncloud/android/authentication/OAuthWebViewClient.java:97-102 | Always resends (one Resend command) and changes no state. |
| OAuthSpec.ShouldOverrideUrlLoading | src/com/owncloud/android/authentication/OAuthWebViewClient.java:105-107 | Never intercepts a navigation. |
| OAuthSpec.OnPageFinished | src/com/owncloud/android/authentication/OAuthWebViewClient.java:122-152 | Always empties the reload slot. The capture flag afterwards is "it was set, or the URL starts with the target". When the URL matches and nothing was captured yet, it appends Hide, plus Post(url) when a handler exists, and queues that same URL. Otherwise the log and the queue stay as they were. Nothing else changes. |
| OAuthSpec.OnReceivedError | src/com/owncloud/android/authentication/OAuthWebViewClient.java:110-119 | A URL other than the slot's, or any URL when the slot is empty, gives one Reload and stores the URL. The slot's own URL gives one DefaultError with the error's code, description and URL, and empties the slot. Nothing else changes. |
| OAuthSpec.X509CertificateFromError | src/com/owncloud/android/authentication/OAuthWebViewClient.java:181-197 | A certificate results exactly when the bytes exist and the factory does not throw. It is then the factory's certificate. Otherwise the result is null (`None`). |
| OAuthSpec.IsKnownServer | src/com/owncloud/android/authentication/OAuthWebViewClient.java:159-167 | True exactly when a certificate exists and the lookup answers yes. A thrown lookup counts as not known. |
| OAuthSpec.SslVerdict | src/com/owncloud/android/authentication/OAuthWebViewClient.java:158-173 | Proceed is chosen exactly when a certificate was extracted and the store knows it. Every other case shows the untrusted-certificate dialog with the extracted certificate (possibly null) and the original error. |
| OAuthSpec.OnReceivedSslError | src/com/owncloud/android/authentication/OAuthWebViewClient.java:155-174 | Issues exactly that verdict and changes no state. |
| OAuthSpec.OnReceivedHttpAuthRequest | src/com/owncloud/android/authentication/OAuthWebViewClient.java:200-204 | Always delegates to the authentication dialog and changes no state. |
| OAuthSpec.CollectListener | src/com/owncloud/android/authentication/OAuthWebViewClient.java:64 | The weak reference yields null from now on. Nothing else changes. |
| OAuthSpec.RunNextPosted | src/com/owncloud/android/authentication/OAuthWebViewClient.java:140-148 | With an empty queue nothing happens. Otherwise the oldest posted URI leaves the queue. The listener receives it exactly when the weak reference still holds a listener. Otherwise it is dropped silently. |
| OAuthSpec.StepPosts | src/com/owncloud/android/authentication/OAuthWebViewClient.java:127-150 | Of all callbacks, only a page finish that captures while a handler exists posts a delivery. It posts exactly the finishing URL. No callback clears the capture flag. |
| OAuthSpec.StepInv | src/com/owncloud/android/authentication/OAuthWebViewClient.java:127-150 | Every callback keeps the invariant. At most one post has been made, none before capture, and every queued or delivered URI was posted and is used once. |
| OAuthSpec.RunInv | src/com/owncloud/android/authentication/OAuthWebViewClient.java:127-150 | Any sequence of callbacks keeps the invariant. |
| OAuthSpec.AtMostOneDelivery | src/com/owncloud/android/authentication/OAuthWebViewClient.java:127-146 | From construction, whatever callbacks follow, including target changes: at most one delivery is posted, the listener is called at most once, and only with the posted URI. |
| OAuthSpec.CapturedStaysCaptured | src/com/owncloud/android/authentication/OAuthWebViewClient.java:127-133 | Once captured, the flag stays set and no sequence of callbacks posts anything more. |
| OAuthSpec.MatchingFinishesPostOnce | src/com/owncloud/android/authentication/OAuthWebViewClient.java:127-150 | Take any non-empty series of finishes that all match the target, before capture and with a handler. It posts exactly one delivery, for the first URL of the series, and queues only that URL. |
| OAuthSpec.MatchingFinishesDeliverOnce | src/com/owncloud/android/authentication/OAuthWebViewClient.java:127-150 | After such a series, with an empty queue and a live listener, the next run of the handler gives the listener exactly the first URL, once. |
| OAuthSpec.FinishesAfterCaptureKeepQueue | src/com/owncloud/android/authentication/OAuthWebViewClient.java:127 | Once captured, any number of further finishes leave the delivery queue, the listener reference and the listener's calls unchanged. |
| OAuthSpec.NonMatchingFinishIgnored | src/com/owncloud/android/authentication/OAuthWebViewClient.java:125-127 | A finish that does not match the target only empties the reload slot. It neither captures nor posts. |
| OAuthSpec.NoDeliveryAfterCollect | src/com/owncloud/android/authentication/OAuthWebViewClient.java:143-147 | After the listener is collected, no sequence of callbacks delivers anything more, and no error results. |
| OAuthSpec.CaptureReachesListener | src/com/owncloud/android/authentication/OAuthWebViewClient.java:138-148 | Suppose a capture happens with a handler, a live listener and an empty queue. When the handler runs, the listener receives the finishing URL. |
| OAuthSpec.RepeatedErrorFallsBack | src/com/owncloud/android/authentication/OAuthWebViewClient.java:112-118 | Two consecutive failures of a URL not in the slot give exactly one Reload, then one DefaultError, and leave the slot empty. |
| OAuthSpec.ReloadAfterFinish | src/com/owncloud/android/authentication/OAuthWebViewClient.java:112-125 | A failure, then any page finish, then the same failure again: the second failure reloads again. |
| OAuthSpec.FailuresAlternate | src/com/owncloud/android/authentication/OAuthWebViewClient.java:112-118 | 2k consecutive failures of one URL, with that URL not in the slot at the start, give k rounds of Reload followed by DefaultError. Back-to-back failures of one URL never reload twice in a row. |
| OAuthSpec.FailuresBetweenFinishesReload | src/com/owncloud/android/authentication/OAuthWebViewClient.java:112-125 | When each failure of a URL is followed by a page finish that does not capture, all k failures reload and none reaches the default handling, because the finish empties the slot. |
| OAuthClient.OAuthWebViewClient.constructor | src/com/owncloud/android/authentication/OAuthWebViewClient.java:70-79 | The target is "fake://url.to.be.set", the slot is empty and the flag is false. The invariant holds. |
| OAuthClient.OAuthWebViewClient.GetTargetUrl | src/com/owncloud/android/authentication/OAuthWebViewClient.java:81-83 | Returns the current target. |
| OAuthClient.OAuthWebViewClient.SetTargetUrl | src/com/owncloud/android/authentication/OAuthWebViewClient.java:85-87 | The target becomes `t`, so a later GetTargetUrl returns `t`. The state changes as `OAuthSpec.SetTargetUrl` says. |
| OAuthClient.OAuthWebViewClient.OnPageStarted | src/com/owncloud/android/authentication/OAuthWebViewClient.java:90-94 | Keeps the invariant and follows `OAuthSpec.OnPageStarted`. |
| OAuthClient.OAuthWebViewClient.OnFormResubmission | src/com/owncloud/android/authentication/OAuthWebViewClient.java:97-102 | Keeps the invariant and follows `OAuthSpec.OnFormResubmission`. |
| OAuthClient.OAuthWebViewClient.OnReceivedError | src/com/owncloud/android/authentication/OAuthWebViewClient.java:110-119 | Keeps the invariant and follows `OAuthSpec.OnReceivedError`. |
| OAuthClient.OAuthWebViewClient.OnPageFinished | src/com/owncloud/android/authentication/OAuthWebViewClient.java:122-152 | Keeps the invariant (at most one delivery ever) and follows `OAuthSpec.OnPageFinished`. |
| OAuthClient.OAuthWebViewClient.OnReceivedSslError | src/com/owncloud/android/authentication/OAuthWebViewClient.java:155-174 | Keeps the invariant and issues `OAuthSpec.SslVerdict`, which fails closed. |
| OAuthClient.OAuthWebViewClient.OnReceivedHttpAuthRequest | src/com/owncloud/android/authentication/OAuthWebViewClient.java:200-204 | Keeps the invariant and follows `OAuthSpec.OnReceivedHttpAuthRequest`. |
| OAuthClient.OAuthWebViewClient.CollectListener | src/com/owncloud/android/authentication/OAuthWebViewClient.java:64 | Keeps the invariant. The weak reference is cleared. |
| OAuthClient.OAuthWebViewClient.RunNextPosted | src/com/owncloud/android/authentication/OAuthWebViewClient.java:140-148 | Keeps the invariant and runs the oldest posted runnable as `OAuthSpec.RunNextPosted` says. |

## Left out

- The Android `WebView` calls are not modelled as behaviour. `clearCache`, `reload`, `setVisibility`, `proceed`, `sendToTarget` and the `super.*` defaults appear only as commands in the log. `super.onPageStarted` does nothing visible and has no command.
- `Log_OC` logging is left out. It has side effects only.
- Certificate decoding is not modelled. `SslCertificate.saveState`, the `Bundle` lookup and `CertificateFactory` are foreign library code. `SslError.certificateBytes` stands for the bundle's bytes, and the factory is an oracle parameter.
- `NetworkUtils.isCertInKnownServersStore` is not modelled. It is a foreign store lookup and appears as the oracle `Cert -> StoreAnswer`.
- `Uri.parse` and the query string are left out. The listener receives the URL string itself.
- The thread hop of `Handler.post` is left out. Posting is a FIFO queue of runnables that `RunNextPosted` drains one at a time, not concurrency.
- The dialogs of `AuthenticatorActivity` are not modelled. `showUntrustedCertDialog` and `createAuthenticationDialog` are outside this model and appear as commands only. The cast of the context to `AuthenticatorActivity` is assumed to succeed.
- Null strings are left out. A null target or failing URL makes the Java code throw `NullPointerException`. Here strings are values and cannot be null. The same holds for a null certificate on the `SslError`, for which `saveState` returns null.
- The `mListenerRef != null` test is not modelled because it always holds after the constructor. Only the handler test is modelled (`hasHandler`).
- Garbage collection may clear the weak reference at any moment. The model has it happen only between callbacks, because callbacks run serially.
