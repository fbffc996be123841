/** `BaseViewModel`: the loading / error bookkeeping every screen controller shares, and the set of
    subscriptions the controller owns.

    `ScreenState` and the `After…` functions specify the three transitions on values; the class
    fields are updated in place by the methods, each of which ties the new state to the old one
    through those functions. */
module BaseViewModels {
  import opened Wrappers
  import opened NetworkErrors
  import APIService

  datatype ScreenState = ScreenState(isLoading: bool, errorMessage: Option<string>, showError: bool)

  const Initial := ScreenState(false, None, false)

  /** The invariant of the screen state: an error is only shown with a message to show, and a
      spinner and an error are never shown at once. */
  predicate Consistent(s: ScreenState) {
    (s.showError ==> s.errorMessage.Some?) && !(s.isLoading && s.showError)
  }

  /** The message `handleError` stores: a `NetworkError`'s `errorDescription`, otherwise the
      error's `localizedDescription`. */
  function ErrorMessage(error: AnyError): Option<string> {
    match error
    case Network(e) => ErrorDescription(e)
    case Decoding(cause) => Some(cause.localizedDescription)
    case Other(cause) => Some(cause.localizedDescription)
  }

  function AfterStartLoading(s: ScreenState): ScreenState {
    s.(isLoading := true, showError := false)
  }

  function AfterStopLoading(s: ScreenState): ScreenState {
    s.(isLoading := false)
  }

  function AfterHandleError(s: ScreenState, error: AnyError): ScreenState {
    ScreenState(false, ErrorMessage(error), true)
  }

  lemma InitialIsConsistent()
    ensures Consistent(Initial) && !Initial.isLoading && !Initial.showError && Initial.errorMessage == None
  {
  }

  /** `startLoading` raises the spinner and hides any error, keeping the message. */
  lemma StartLoadingEffect(s: ScreenState)
    ensures var t := AfterStartLoading(s);
      t.isLoading && !t.showError && t.errorMessage == s.errorMessage && Consistent(t)
  {
  }

  lemma StartLoadingIdempotent(s: ScreenState)
    ensures AfterStartLoading(AfterStartLoading(s)) == AfterStartLoading(s)
  {
  }

  /** `stopLoading` lowers the spinner and changes nothing else. */
  lemma StopLoadingEffect(s: ScreenState)
    requires Consistent(s)
    ensures var t := AfterStopLoading(s);
      !t.isLoading && t.errorMessage == s.errorMessage && t.showError == s.showError && Consistent(t)
  {
  }

  /** `handleError` on a `NetworkError` lowers the spinner and shows that error's description. */
  lemma HandleErrorEffect(s: ScreenState, e: NetworkError)
    ensures var t := AfterHandleError(s, Network(e));
      !t.isLoading && t.showError && t.errorMessage == ErrorDescription(e) && t.errorMessage.Some?
      && Consistent(t)
  {
  }

  /** Every message `handleError` stores is present, whatever the error. */
  lemma HandleErrorShowsMessage(s: ScreenState, error: AnyError)
    ensures var t := AfterHandleError(s, error);
      t.errorMessage.Some? && Consistent(t)
  {
  }

  /** One call of a base operation. */
  datatype Transition = StartLoading | StopLoading | HandleError(error: AnyError)

  function Apply(s: ScreenState, t: Transition): ScreenState {
    match t
    case StartLoading => AfterStartLoading(s)
    case StopLoading => AfterStopLoading(s)
    case HandleError(e) => AfterHandleError(s, e)
  }

  /** The state after the base operations `ts`, applied in order. */
  function Run(s: ScreenState, ts: seq<Transition>): ScreenState
    decreases |ts|
  {
    if ts == [] then s else Run(Apply(s, ts[0]), ts[1..])
  }

  /** Whatever base operations a controller performs, in whatever order, the invariant holds
      throughout: an error is shown only with a message, never together with the spinner. A run
      that ends in `stopLoading` or `handleError` ends with the spinner down, and one that ends in
      `startLoading` ends with no error shown. */
  lemma {:induction false} RunKeepsConsistent(s: ScreenState, ts: seq<Transition>)
    requires Consistent(s)
    ensures Consistent(Run(s, ts))
    ensures ts != [] && !ts[|ts| - 1].StartLoading? ==> !Run(s, ts).isLoading
    ensures ts != [] && ts[|ts| - 1].StartLoading? ==> !Run(s, ts).showError
    decreases |ts|
  {
    if ts != [] {
      var next := Apply(s, ts[0]);
      assert Consistent(next);
      RunKeepsConsistent(next, ts[1..]);
      if |ts| > 1 {
        assert ts[1..][|ts[1..]| - 1] == ts[|ts| - 1];
      }
    }
  }

  /** How a subscription's publisher ends: `.finished` or `.failure(error)`. */
  datatype Completion = Finished | Failed(error: NetworkError)

  /** Which load method's `sink` made a subscription, and so which pair of callbacks its events
      run. */
  datatype Sink = UsersSink | PostsSink | UserSink | UserPostsSink

  /** `AnyCancellable` returned by `sink`: one subscription to the publisher of `call`, whose
      callbacks are those of `sink`. */
  class Subscription {
    const call: APIService.Call
    const sink: Sink

    constructor (call: APIService.Call, sink: Sink)
      ensures this.call == call && this.sink == sink
    {
      this.call := call;
      this.sink := sink;
    }
  }

  /** The calls whose subscriptions are in `subscriptions`. */
  function Requests(subscriptions: set<Subscription>): set<APIService.Call> {
    set s | s in subscriptions :: s.call
  }

  class BaseViewModel {
    var isLoading: bool
    var errorMessage: Option<string>
    var showError: bool
    var cancellables: set<Subscription>

    function State(): ScreenState
      reads this
    {
      ScreenState(isLoading, errorMessage, showError)
    }

    predicate Valid()
      reads this
    {
      Consistent(State())
    }

    constructor ()
      ensures Valid()
      ensures State() == Initial && cancellables == {}
    {
      isLoading := false;
      errorMessage := None;
      showError := false;
      cancellables := {};
    }

    method HandleError(error: AnyError)
      modifies this
      ensures Valid()
      ensures State() == AfterHandleError(old(State()), error)
      ensures cancellables == old(cancellables)
    {
      isLoading := false;
      match error {
        case Network(e) => errorMessage := ErrorDescription(e);
        case Decoding(cause) => errorMessage := Some(cause.localizedDescription);
        case Other(cause) => errorMessage := Some(cause.localizedDescription);
      }
      showError := true;
    }

    method StartLoading()
      modifies this
      ensures Valid()
      ensures State() == AfterStartLoading(old(State()))
      ensures cancellables == old(cancellables)
    {
      isLoading := true;
      showError := false;
    }

    method StopLoading()
      requires Valid()
      modifies this
      ensures Valid()
      ensures State() == AfterStopLoading(old(State()))
      ensures cancellables == old(cancellables)
    {
      isLoading := false;
    }

    /** `store(in: &cancellables)`. */
    method Store(s: Subscription)
      modifies this
      ensures State() == old(State())
      ensures cancellables == old(cancellables) + {s}
    {
      cancellables := cancellables + {s};
    }
  }
}
