/** `HomeViewModel`: the list screen. It loads all users and all posts. Only the users load raises
    the spinner and only its completion calls `stopLoading`; a posts completion never does, but a
    failed one lowers the spinner through `handleError`.

    Each Combine callback is an event method applied atomically: `ReceiveUsers` / `CompleteUsers`
    for the users subscription, `ReceivePosts` / `CompletePosts` for the posts subscription. An
    event names the subscription it is delivered on: one this controller stored, made by the
    matching load.
    The `BaseViewModel` superclass is the `base` object. */
module HomeViewModels {
  import opened Wrappers
  import opened NetworkErrors
  import opened BaseViewModels
  import Models
  import APIService

  class HomeViewModel {
    const base: BaseViewModel
    var users: seq<Models.User>
    var posts: seq<Models.Post>

    predicate Valid()
      reads this, base
    {
      base.Valid()
    }

    /** `init`: issues `loadUsers` then `loadPosts`. */
    constructor ()
      ensures Valid() && fresh(base)
      ensures users == [] && posts == []
      ensures base.State() == AfterStartLoading(Initial)
      ensures |base.cancellables| == 2
      ensures Requests(base.cancellables) == {APIService.GetUsers(), APIService.GetPosts()}
      ensures exists u, p | u in base.cancellables && p in base.cancellables ::
        && u.call == APIService.GetUsers() && u.sink == UsersSink
        && p.call == APIService.GetPosts() && p.sink == PostsSink
    {
      base := new BaseViewModel();
      users := [];
      posts := [];
      new;
      var usersSubscription := LoadUsers();
      var postsSubscription := LoadPosts();
      assert base.cancellables == {usersSubscription, postsSubscription};
    }

    /** `loadUsers`: `startLoading`, then one new subscription to `getUsers`. */
    method LoadUsers() returns (s: Subscription)
      requires Valid()
      modifies base
      ensures Valid()
      ensures base.State() == AfterStartLoading(old(base.State()))
      ensures fresh(s) && s.call == APIService.GetUsers() && s.sink == UsersSink
      ensures base.cancellables == old(base.cancellables) + {s}
      ensures |base.cancellables| == |old(base.cancellables)| + 1
    {
      base.StartLoading();
      s := new Subscription(APIService.GetUsers(), UsersSink);
      base.Store(s);
    }

    /** `loadPosts`: one new subscription to `getPosts`; the spinner is not touched. */
    method LoadPosts() returns (s: Subscription)
      requires Valid()
      modifies base
      ensures Valid()
      ensures base.State() == old(base.State())
      ensures fresh(s) && s.call == APIService.GetPosts() && s.sink == PostsSink
      ensures base.cancellables == old(base.cancellables) + {s}
      ensures |base.cancellables| == |old(base.cancellables)| + 1
    {
      s := new Subscription(APIService.GetPosts(), PostsSink);
      base.Store(s);
    }

    /** The users value: replaces `users` wholesale. */
    method ReceiveUsers(s: Subscription, payload: seq<Models.User>)
      requires Valid() && s in base.cancellables && s.sink == UsersSink
      modifies this
      ensures Valid()
      ensures users == payload && posts == old(posts)
    {
      users := payload;
    }

    /** The users completion: always `stopLoading`, and `handleError` on failure. */
    method CompleteUsers(s: Subscription, completion: Completion)
      requires Valid() && s in base.cancellables && s.sink == UsersSink
      modifies base
      ensures Valid()
      ensures !base.isLoading
      ensures base.State() == match completion
        case Finished => AfterStopLoading(old(base.State()))
        case Failed(e) => AfterHandleError(AfterStopLoading(old(base.State())), Network(e))
      ensures base.cancellables == old(base.cancellables)
    {
      base.StopLoading();
      if completion.Failed? {
        base.HandleError(Network(completion.error));
      }
    }

    /** The posts value: replaces `posts` wholesale. */
    method ReceivePosts(s: Subscription, payload: seq<Models.Post>)
      requires Valid() && s in base.cancellables && s.sink == PostsSink
      modifies this
      ensures Valid()
      ensures posts == payload && users == old(users)
    {
      posts := payload;
    }

    /** The posts completion: `handleError` on failure; no `stopLoading`. */
    method CompletePosts(s: Subscription, completion: Completion)
      requires Valid() && s in base.cancellables && s.sink == PostsSink
      modifies base
      ensures Valid()
      ensures base.State() == match completion
        case Finished => old(base.State())
        case Failed(e) => AfterHandleError(old(base.State()), Network(e))
      ensures base.cancellables == old(base.cancellables)
    {
      if completion.Failed? {
        base.HandleError(Network(completion.error));
      }
    }

    /** `refresh`: empties both lists, then reissues both loads. */
    method Refresh() returns (usersSubscription: Subscription, postsSubscription: Subscription)
      requires Valid()
      modifies this, base
      ensures Valid()
      ensures users == [] && posts == []
      ensures base.State() == AfterStartLoading(old(base.State()))
      ensures fresh(usersSubscription) && usersSubscription.call == APIService.GetUsers()
      ensures usersSubscription.sink == UsersSink
      ensures fresh(postsSubscription) && postsSubscription.call == APIService.GetPosts()
      ensures postsSubscription.sink == PostsSink
      ensures base.cancellables == old(base.cancellables) + {usersSubscription, postsSubscription}
      ensures |base.cancellables| == |old(base.cancellables)| + 2
    {
      users := [];
      posts := [];
      usersSubscription := LoadUsers();
      postsSubscription := LoadPosts();
    }
  }

  /** A refresh followed by the users payload leaves exactly that payload, not a union with the
      users held before. */
  method RefreshThenReceiveUsers(vm: HomeViewModel, payload: seq<Models.User>)
    requires vm.Valid()
    modifies vm, vm.base
    ensures vm.Valid()
    ensures vm.users == payload && vm.posts == []
    ensures vm.base.isLoading && !vm.base.showError
  {
    var usersSubscription, _ := vm.Refresh();
    vm.ReceiveUsers(usersSubscription, payload);
  }

  /** Two overlapping `loadUsers` (a double tap): whichever of the two completions arrives last,
      and however each ends, the spinner is down afterwards. `firstEndsLast` picks the order. */
  method DoubleTapLoadUsers(vm: HomeViewModel, first: Completion, second: Completion,
                            payload: seq<Models.User>, firstEndsLast: bool)
    requires vm.Valid()
    modifies vm, vm.base
    ensures vm.Valid()
    ensures !vm.base.isLoading
    ensures |vm.base.cancellables| == |old(vm.base.cancellables)| + 2
  {
    var s1 := vm.LoadUsers();
    var s2 := vm.LoadUsers();
    vm.ReceiveUsers(s2, payload);
    if firstEndsLast {
      vm.CompleteUsers(s2, second);
      vm.CompleteUsers(s1, first);
    } else {
      vm.CompleteUsers(s1, first);
      vm.CompleteUsers(s2, second);
    }
  }

  /** The screen's first load: `init` subscribes, and the users arrive and finish on the users
      subscription it made; the list shows them and the spinner is down. */
  method InitThenReceiveUsers(payload: seq<Models.User>) returns (vm: HomeViewModel)
    ensures vm.Valid()
    ensures vm.users == payload && vm.posts == []
    ensures !vm.base.isLoading && !vm.base.showError
  {
    vm := new HomeViewModel();
    var u, p :| u in vm.base.cancellables && p in vm.base.cancellables
      && u.call == APIService.GetUsers() && u.sink == UsersSink
      && p.call == APIService.GetPosts() && p.sink == PostsSink;
    vm.ReceiveUsers(u, payload);
    vm.CompleteUsers(u, Finished);
  }
}
