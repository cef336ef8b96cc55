/**
  The mobile handoff modal: opening it shows a QR code of the frontend's LAN
  address, fetched from the backend the first time and cached in `qrUrl`
  afterwards. The address request is an outstanding completion that arrives
  as an event. An empty `qrUrl` stands for every falsy value the field can hold.
*/
module MobileHandoff {
  import opened Text
  import BackendApi

  /** The address stored when the request fails. */
  const FallbackUrl: string := "http://localhost:3000"

  /** The component's state; `pendingFetches` counts the address requests started and not yet settled. */
  datatype Handoff = Handoff(showModal: bool, qrUrl: string, loading: bool, pendingFetches: nat)

  /** How an address request ended: the body's `frontend_url`, or a failure. */
  datatype FetchOutcome = Fetched(frontendUrl: string) | FetchFailed

  /** The state when the component mounts. */
  function Initial(): (s: Handoff)
    ensures !s.showModal && s.qrUrl == "" && !s.loading && s.pendingFetches == 0
  {
    Handoff(false, "", false, 0)
  }

  datatype Event =
    | Open                          // "Connect Mobile"
    | Close                         // the modal's close button
    | FetchSettled(outcome: FetchOutcome)

  /** When an event can happen: the modal's overlay covers the open button, the close button is inside the modal, and a settlement needs an outstanding request. */
  predicate Enabled(s: Handoff, e: Event) {
    match e
    case Open => !s.showModal
    case Close => s.showModal
    case FetchSettled(_) => s.pendingFetches > 0
  }

  /** The state after one event: opening starts a request only while no address is cached. */
  function Step(s: Handoff, e: Event): (t: Handoff)
    requires Enabled(s, e)
    ensures t.qrUrl != s.qrUrl ==> e.FetchSettled?
    ensures t.pendingFetches > s.pendingFetches <==> e.Open? && s.qrUrl == ""
    ensures e.FetchSettled? ==> !t.loading && t.showModal == s.showModal
    ensures !e.FetchSettled? ==> t.showModal == e.Open?
  {
    match e
    case Open =>
      if s.qrUrl == "" then s.(showModal := true, loading := true, pendingFetches := s.pendingFetches + 1)
      else s.(showModal := true)
    case Close => s.(showModal := false)
    case FetchSettled(Fetched(url)) => s.(qrUrl := url, loading := false, pendingFetches := s.pendingFetches - 1)
    case FetchSettled(FetchFailed) => s.(qrUrl := FallbackUrl, loading := false, pendingFetches := s.pendingFetches - 1)
  }

  /** The loading flag is set only while a request is outstanding. */
  predicate Inv(s: Handoff) {
    s.loading ==> s.pendingFetches > 0
  }

  lemma InitialInv()
    ensures Inv(Initial())
  {
  }

  /** Every event keeps the invariant. */
  lemma StepPreservesInv(s: Handoff, e: Event)
    requires Inv(s) && Enabled(s, e)
    ensures Inv(Step(s, e))
  {
  }

  /** Opening shows the modal, and starts a request (setting the loading flag) exactly when no address is cached. */
  lemma OpenFetchesOnlyWhenEmpty(s: Handoff)
    requires Enabled(s, Open)
    ensures Step(s, Open).showModal && Step(s, Open).qrUrl == s.qrUrl
    ensures Step(s, Open).pendingFetches == s.pendingFetches + 1 <==> s.qrUrl == ""
    ensures Step(s, Open).pendingFetches == s.pendingFetches <==> s.qrUrl != ""
    ensures Step(s, Open).loading == (s.loading || s.qrUrl == "")
  {
  }

  /** A successful request stores the `frontend_url` it returned, a failed one the localhost address; either way loading ends. */
  lemma FetchStoresUrl(s: Handoff, outcome: FetchOutcome)
    requires Enabled(s, FetchSettled(outcome))
    ensures Step(s, FetchSettled(outcome)).qrUrl == (if outcome.Fetched? then outcome.frontendUrl else FallbackUrl)
    ensures !Step(s, FetchSettled(outcome)).loading
    ensures Step(s, FetchSettled(outcome)).showModal == s.showModal
  {
  }

  /** Closing only hides the modal. */
  lemma CloseKeepsUrl(s: Handoff)
    requires Enabled(s, Close)
    ensures Step(s, Close) == s.(showModal := false)
  {
  }

  /** With an address cached, closing and reopening shows the modal again without a new request. */
  lemma ReopenDoesNotRefetch(s: Handoff)
    requires Enabled(s, Close) && s.qrUrl != ""
    ensures var t := Step(s, Close);
      Enabled(t, Open) && Step(t, Open) == s
  {
  }

  /** Once a request has settled, the address is cached for good: no later open starts a request. */
  lemma SettledFetchCaches(s: Handoff, url: string)
    requires Enabled(s, FetchSettled(Fetched(url))) && url != ""
    ensures var t := Step(s, FetchSettled(Fetched(url)));
      t.qrUrl == url && (!t.showModal ==> Step(t, Open).pendingFetches == t.pendingFetches)
  {
  }

  /** A failed request caches the localhost address, so it too is never retried. */
  lemma FailureIsNotRetried(s: Handoff)
    requires Enabled(s, FetchSettled(FetchFailed))
    ensures var t := Step(s, FetchSettled(FetchFailed));
      t.qrUrl != "" && (!t.showModal ==> Step(t, Open).pendingFetches == t.pendingFetches)
  {
  }

  /** The backend's answer puts `http://<lan ip>:3000` into the QR code. */
  lemma FetchedSystemIp(s: Handoff, lanIp: string)
    requires Enabled(s, FetchSettled(Fetched(BackendApi.GetSystemIp(lanIp).frontendUrl)))
    ensures var url := Step(s, FetchSettled(Fetched(BackendApi.GetSystemIp(lanIp).frontendUrl))).qrUrl;
      StartsWith(url, "http://") && EndsWith(url, ":3000") && url[7..|url| - 5] == lanIp
  {
  }

  /** What the modal shows. */
  datatype Body = Spinner | QrCode(value: string) | QrFailed

  /**
    The modal body: the spinner while loading, else the QR code of a non-empty
    address, else the failure text. The QR code shows exactly the cached
    address, and the failure text appears only when there is none and nothing
    is loading.
  */
  function ModalBody(s: Handoff): (b: Body)
    ensures b == Spinner <==> s.loading
    ensures b.QrCode? <==> !s.loading && s.qrUrl != ""
    ensures b.QrCode? ==> b.value == s.qrUrl
    ensures b == QrFailed <==> !s.loading && s.qrUrl == ""
  {
    if s.loading then Spinner
    else if s.qrUrl != "" then QrCode(s.qrUrl)
    else QrFailed
  }

  /** After a failed request the modal shows the QR code of the localhost address, never the failure text. */
  lemma FailureShowsLocalhost(s: Handoff)
    requires Enabled(s, FetchSettled(FetchFailed))
    ensures ModalBody(Step(s, FetchSettled(FetchFailed))) == QrCode(FallbackUrl)
  {
  }

  /** The component's state held as fields. */
  class HandoffModal {
    var showModal: bool
    var qrUrl: string
    var loading: bool
    var pendingFetches: nat

    function State(): Handoff
      reads this
    {
      Handoff(showModal, qrUrl, loading, pendingFetches)
    }

    constructor ()
      ensures State() == Initial()
    {
      showModal := false;
      qrUrl := "";
      loading := false;
      pendingFetches := 0;
    }

    /** `handleOpenModal`, with `fetchLanIp` up to its request. */
    method HandleOpenModal()
      requires !showModal
      modifies this
      ensures State() == Step(old(State()), Open)
    {
      showModal := true;
      if qrUrl == "" {
        loading := true;
        pendingFetches := pendingFetches + 1;
      }
    }

    /** The close button. */
    method HandleClose()
      requires showModal
      modifies this
      ensures State() == Step(old(State()), Close)
    {
      showModal := false;
    }

    /** The rest of `fetchLanIp` once its request settles, including its `finally`. */
    method OnFetchSettled(outcome: FetchOutcome)
      requires pendingFetches > 0
      modifies this
      ensures State() == Step(old(State()), FetchSettled(outcome))
    {
      match outcome {
        case Fetched(url) => qrUrl := url;
        case FetchFailed => qrUrl := FallbackUrl;
      }
      loading := false;
      pendingFetches := pendingFetches - 1;
    }
  }
}
