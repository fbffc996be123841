/** `ProfileViewModel`: the profile screen. Loading a user raises the spinner and the user's
    completion calls `stopLoading`; a received user chains a load of that user's posts. That load
    does not raise the spinner and its completion never calls `stopLoading`, but a failed one
    lowers the spinner through `handleError`.

    Callbacks are event methods applied atomically, each naming the stored subscription, made
    by the matching load, it is
    delivered on. The `BaseViewModel` superclass is the `base` object. */
module ProfileViewModels {
  import opened Wrappers
  import opened NetworkErrors
  import opened BaseViewModels
  import Models
  import APIService

  class ProfileViewModel {
    const base: BaseViewModel
    var user: Option<Models.User>
    var userPosts: seq<Models.Post>

    predicate Valid()
      reads this, base
    {
      base.Valid()
    }

    /** `init`: no load is issued. */
    constructor ()
      ensures Valid() && fresh(base)
      ensures user == None && userPosts == []
      ensures base.State() == Initial && base.cancellables == {}
    {
      base := new BaseViewModel();
      user := None;
      userPosts := [];
    }

    /** `loadUser(id:)`: `startLoading`, then one new subscription to `getUser(id:)`. */
    method LoadUser(id: int) returns (s: Subscription)
      requires Valid()
      modifies base
      ensures Valid()
      ensures base.State() == AfterStartLoading(old(base.State()))
      ensures fresh(s) && s.call == APIService.GetUser(id) && s.sink == UserSink
      ensures base.cancellables == old(base.cancellables) + {s}
      ensures |base.cancellables| == |old(base.cancellables)| + 1
    {
      base.StartLoading();
      s := new Subscription(APIService.GetUser(id), UserSink);
      base.Store(s);
    }

    /** `loadUserPosts(userId:)`: one new subscription to `getUserPosts(userId:)`; the spinner is
        not touched. */
    method LoadUserPosts(userId: int) returns (s: Subscription)
      requires Valid()
      modifies base
      ensures Valid()
      ensures base.State() == old(base.State())
      ensures fresh(s) && s.call == APIService.GetUserPosts(userId) && s.sink == UserPostsSink
      ensures base.cancellables == old(base.cancellables) + {s}
      ensures |base.cancellables| == |old(base.cancellables)| + 1
    {
      s := new Subscription(APIService.GetUserPosts(userId), UserPostsSink);
      base.Store(s);
    }

    /** The user value: stores the user, then loads the posts of the received user's id. */
    method ReceiveUser(s: Subscription, received: Models.User) returns (postsSubscription: Subscription)
      requires Valid() && s in base.cancellables && s.sink == UserSink
      modifies this, base
      ensures Valid()
      ensures user == Some(received) && userPosts == old(userPosts)
      ensures base.State() == old(base.State())
      ensures fresh(postsSubscription) && postsSubscription.call == APIService.GetUserPosts(received.id)
      ensures postsSubscription.sink == UserPostsSink
      ensures base.cancellables == old(base.cancellables) + {postsSubscription}
    {
      user := Some(received);
      postsSubscription := LoadUserPosts(received.id);
    }

    /** The user completion: always `stopLoading`, and `handleError` on failure. The user and the
        posts already held are kept. */
    method CompleteUser(s: Subscription, completion: Completion)
      requires Valid() && s in base.cancellables && s.sink == UserSink
      modifies base
      ensures Valid()
      ensures !base.isLoading
      ensures base.State() == match completion
        case Finished => AfterStopLoading(old(base.State()))
        case Failed(e) => AfterHandleError(AfterStopLoading(old(base.State())), Network(e))
      ensures base.cancellables == old(base.cancellables)
      ensures user == old(user) && userPosts == old(userPosts)
    {
      base.StopLoading();
      if completion.Failed? {
        base.HandleError(Network(completion.error));
      }
    }

    /** The posts value: replaces `userPosts` wholesale. */
    method ReceiveUserPosts(s: Subscription, payload: seq<Models.Post>)
      requires Valid() && s in base.cancellables && s.sink == UserPostsSink
      modifies this
      ensures Valid()
      ensures userPosts == payload && user == old(user)
    {
      userPosts := payload;
    }

    /** The posts completion: `handleError` on failure; success changes nothing. */
    method CompleteUserPosts(s: Subscription, completion: Completion)
      requires Valid() && s in base.cancellables && s.sink == UserPostsSink
      modifies base
      ensures Valid()
      ensures base.State() == match completion
        case Finished => old(base.State())
        case Failed(e) => AfterHandleError(old(base.State()), Network(e))
      ensures base.cancellables == old(base.cancellables)
      ensures user == old(user) && userPosts == old(userPosts)
    {
      if completion.Failed? {
        base.HandleError(Network(completion.error));
      }
    }
  }

  /** Loading user `id` whose value arrives: the user is shown and the posts of the received user
      are requested next, strictly after the user arrived. */
  method LoadUserThenPosts(vm: ProfileViewModel, id: int, received: Models.User)
    returns (postsSubscription: Subscription)
    requires vm.Valid()
    modifies vm, vm.base
    ensures vm.Valid()
    ensures vm.user == Some(received)
    ensures vm.base.isLoading && !vm.base.showError
    ensures postsSubscription.call == APIService.GetUserPosts(received.id)
    ensures postsSubscription in vm.base.cancellables && postsSubscription.sink == UserPostsSink
    ensures |vm.base.cancellables| == |old(vm.base.cancellables)| + 2
  {
    var userSubscription := vm.LoadUser(id);
    postsSubscription := vm.ReceiveUser(userSubscription, received);
  }
}
