/**
  The client object itself: the fields the browser callbacks update in
  place, and one method per callback.  The constructor establishes
  `Valid()` in the state of `OAuthSpec.Init`; every state-changing method
  keeps `Valid()` and leaves the object in the state the function of the
  same name in OAuthSpec computes from the state before the call, so the properties
  proved there (one delivery at most, the reload slot, fail-closed trust)
  hold of the object.
*/
module OAuthClient {
  import opened Wrappers
  import opened OAuthSpec

  class OAuthWebViewClient {
    /** Whether a listener handler was passed to the constructor (it is held for the lifetime). */
    const hasListenerHandler: bool
    /** What the weak listener reference yields now. */
    var listenerRef: Option<Listener>
    var targetUrl: Url
    var lastReloadedUrlAtError: Option<Url>
    var capturedUriFromRedirection: bool

    /** The world the client talks to: host commands, the handler's queue, the listener's calls. */
    var commands: seq<Command>
    var posted: seq<Url>
    var received: seq<Delivery>

    function State(): Snapshot
      reads this
    {
      Snapshot(targetUrl, lastReloadedUrlAtError, capturedUriFromRedirection, hasListenerHandler,
               listenerRef, commands, posted, received)
    }

    ghost predicate Valid()
      reads this
    {
      Inv(State())
    }

    /** The listener may be null; with the handler it is all the client is given. */
    constructor (listenerHandler: bool, listener: Option<Listener>)
      ensures Valid()
      ensures State() == Init(listenerHandler, listener)
      ensures targetUrl == "fake://url.to.be.set"
      ensures lastReloadedUrlAtError == None && !capturedUriFromRedirection
    {
      hasListenerHandler := listenerHandler;
      listenerRef := listener;
      targetUrl := InitialTargetUrl;
      lastReloadedUrlAtError := None;
      capturedUriFromRedirection := false;
      commands, posted, received := [], [], [];
    }

    method GetTargetUrl() returns (t: Url)
      ensures t == State().target
    {
      t := targetUrl;
    }

    method SetTargetUrl(t: Url)
      requires Valid()
      modifies this
      ensures Valid()
      ensures targetUrl == t
      ensures State() == OAuthSpec.SetTargetUrl(old(State()), t)
    {
      ghost var s0 := State();
      targetUrl := t;
      assert State() == Step(s0, SetTarget(t));
      StepInv(s0, SetTarget(t));
    }

    method OnPageStarted(url: Url)
      requires Valid()
      modifies this
      ensures Valid()
      ensures State() == OAuthSpec.OnPageStarted(old(State()), url)
    {
      ghost var s0 := State();
      commands := commands + [ClearCache];
      assert State() == Step(s0, Started(url));
      StepInv(s0, Started(url));
    }

    method OnFormResubmission()
      requires Valid()
      modifies this
      ensures Valid()
      ensures State() == OAuthSpec.OnFormResubmission(old(State()))
    {
      ghost var s0 := State();
      commands := commands + [Resend];
      assert State() == Step(s0, Resubmission);
      StepInv(s0, Resubmission);
    }

    method OnReceivedError(errorCode: int, description: string, failingUrl: Url)
      requires Valid()
      modifies this
      ensures Valid()
      ensures State() == OAuthSpec.OnReceivedError(old(State()), errorCode, description, failingUrl)
    {
      ghost var s0 := State();
      if lastReloadedUrlAtError != Some(failingUrl) {
        commands := commands + [Reload];
        lastReloadedUrlAtError := Some(failingUrl);
        assert State() == s0.(lastFailed := Some(failingUrl), log := s0.log + [Reload]);
      } else {
        lastReloadedUrlAtError := None;
        commands := commands + [DefaultError(errorCode, description, failingUrl)];
        assert State() == s0.(lastFailed := None, log := s0.log + [DefaultError(errorCode, description, failingUrl)]);
      }
      assert State() == Step(s0, LoadError(errorCode, description, failingUrl));
      StepInv(s0, LoadError(errorCode, description, failingUrl));
    }

    method OnPageFinished(url: Url)
      requires Valid()
      modifies this
      ensures Valid()
      ensures State() == OAuthSpec.OnPageFinished(old(State()), url)
    {
      ghost var s0 := State();
      lastReloadedUrlAtError := None;
      if StartsWith(url, targetUrl) && !capturedUriFromRedirection {
        commands := commands + [Hide];
        // set before posting, so that a later finish of a related page finds it set
        capturedUriFromRedirection := true;
        if hasListenerHandler {
          commands := commands + [Post(url)];
          posted := posted + [url];
        }
      }
      assert State() == Step(s0, Finished(url));
      StepInv(s0, Finished(url));
    }

    /**
      `generate` is the X.509 certificate factory (None: it threw) and
      `knownServers` the known-servers store lookup.
    */
    method OnReceivedSslError(error: SslError, generate: seq<bv8> -> Option<Cert>, knownServers: Cert -> StoreAnswer)
      requires Valid()
      modifies this
      ensures Valid()
      ensures State() == OAuthSpec.OnReceivedSslError(old(State()), error, generate, knownServers)
    {
      ghost var s0 := State();
      var cert := X509CertificateFromError(error, generate);
      var isKnownServer := false;
      if cert.Some? {
        match knownServers(cert.value)
        case Known => isKnownServer := true;
        case Unknown =>
        case Thrown =>
      }
      var verdict := if isKnownServer then Proceed else ShowUntrustedCertDialog(cert, error);
      assert verdict == SslVerdict(error, generate, knownServers);
      commands := commands + [verdict];
      assert State() == Step(s0, TlsError(error, generate, knownServers));
      StepInv(s0, TlsError(error, generate, knownServers));
    }

    method OnReceivedHttpAuthRequest(host: string, realm: string)
      requires Valid()
      modifies this
      ensures Valid()
      ensures State() == OAuthSpec.OnReceivedHttpAuthRequest(old(State()), host, realm)
    {
      ghost var s0 := State();
      commands := commands + [ShowAuthDialog];
      assert State() == Step(s0, AuthChallenge(host, realm));
      StepInv(s0, AuthChallenge(host, realm));
    }

    /** The garbage collector clears the weak listener reference. */
    method CollectListener()
      requires Valid()
      modifies this
      ensures Valid()
      ensures State() == OAuthSpec.CollectListener(old(State()))
    {
      ghost var s0 := State();
      listenerRef := None;
      assert State() == Step(s0, ListenerCollected);
      StepInv(s0, ListenerCollected);
    }

    /** The listener handler runs the oldest posted runnable. */
    method RunNextPosted()
      requires Valid()
      modifies this
      ensures Valid()
      ensures State() == OAuthSpec.RunNextPosted(old(State()))
    {
      ghost var s0 := State();
      if posted != [] {
        var uri := posted[0];
        posted := posted[1..];
        match listenerRef
        case Some(listener) => received := received + [Delivery(listener, uri)];
        case None =>
      }
      assert State() == Step(s0, HandlerRuns);
      StepInv(s0, HandlerRuns);
    }
  }
}
