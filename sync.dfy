/** The subscription state machine of the device store: the cached user, token
    and subscription flag, changed by the host's calls (subscribe, unsubscribe,
    sign-out) and by three callbacks (token fetch completion, auth state change,
    token rotation broadcast). The environment (current auth user, notification
    permission, tokens) arrives as parameters; each call to the platform is
    recorded as an effect in a ghost log, in the order the source makes it. */
module Sync {
  import opened Wrappers
  import opened Devices
  import Transactions

  /** Calls into the platform: a device write or delete transaction for a user,
      a token request, listener registration and removal. */
  datatype Effect =
    | UpdateDeviceCall(userId: UserId, token: Option<Token>)
    | DeleteDeviceCall(userId: UserId)
    | RequestToken
    | AddAuthStateListener
    | RemoveAuthStateListener

  /** How the asynchronous token request completes. */
  datatype FetchResult = Fetched(token: Option<Token>) | FetchFailed

  /** Exceptions the entry points throw. */
  datatype Error = NotificationsDisabled | NullPointer

  /** Runs an effect against the store: a device write or delete is its transaction,
      applied atomically; the other calls leave every document as it is. */
  function Perform(store: Transactions.Store, e: Effect): (r: Transactions.Store)
    ensures e.UpdateDeviceCall? || e.DeleteDeviceCall? ==>
      r.Keys == store.Keys + {e.userId} &&
      forall v :: v in store && v != e.userId ==> r[v] == store[v]
    ensures !e.UpdateDeviceCall? && !e.DeleteDeviceCall? ==> r == store
  {
    match e
    case UpdateDeviceCall(userId, token) => Transactions.UpdateDevice(store, userId, token)
    case DeleteDeviceCall(userId) => Transactions.DeleteDevice(store, userId)
    case _ => store
  }

  class FirebaseDeviceStore {
    var subscribed: bool
    var currentUser: Option<UserId>
    var currentToken: Option<Token>
    /** Whether an auth state listener handle is held (the handle is non-null). */
    var hasAuthStateListener: bool
    /** Platform calls made so far. */
    ghost var effects: seq<Effect>

    /** A listener is held exactly while subscribed, and a user is cached only while
        subscribed (only `subscribe` and the listener set it). */
    ghost predicate Valid()
      reads this
    {
      hasAuthStateListener == subscribed &&
      (!subscribed ==> currentUser == None)
    }

    constructor ()
      ensures Valid()
      ensures !subscribed && currentUser == None && currentToken == None
      ensures effects == []
    {
      subscribed := false;
      currentUser := None;
      currentToken := None;
      hasAuthStateListener := false;
      effects := [];
    }

    /** `signOut`: deletes this device for the cached user when a user and a token are
        cached, and always forgets the user. */
    method SignOut()
      requires Valid()
      modifies this
      ensures Valid()
      ensures currentUser == None
      ensures !old(subscribed) ==> effects == old(effects)
      ensures currentToken == old(currentToken) && subscribed == old(subscribed)
      ensures hasAuthStateListener == old(hasAuthStateListener)
      ensures effects == old(effects) +
        (if old(currentUser).Some? && old(currentToken).Some?
         then [DeleteDeviceCall(old(currentUser).value)] else [])
    {
      if currentUser.Some? && currentToken.Some? {
        effects := effects + [DeleteDeviceCall(currentUser.value)];
      }
      currentUser := None;
    }

    /** `subscribe`: nothing when already subscribed; throws when notifications are
        disabled; otherwise subscribes, adopts the auth user, requests the token and
        registers the auth state listener. */
    method Subscribe(notificationsEnabled: bool, authUser: Option<UserId>) returns (outcome: Outcome<Error>)
      requires Valid()
      modifies this
      ensures Valid()
      ensures outcome == (if !old(subscribed) && !notificationsEnabled then Fail(NotificationsDisabled) else Pass)
      ensures old(subscribed) || !notificationsEnabled ==>
        subscribed == old(subscribed) && currentUser == old(currentUser) &&
        currentToken == old(currentToken) && effects == old(effects)
      ensures !old(subscribed) && notificationsEnabled ==>
        subscribed && currentUser == authUser && currentToken == old(currentToken) &&
        effects == old(effects) + [RequestToken, AddAuthStateListener]
    {
      if subscribed {
        return Pass;
      }
      if !notificationsEnabled {
        return Fail(NotificationsDisabled);
      }
      subscribed := true;
      currentUser := authUser;
      effects := effects + [RequestToken];
      hasAuthStateListener := true;
      effects := effects + [AddAuthStateListener];
      outcome := Pass;
    }

    /** Completion of the token request made by `subscribe`: on success caches the
        token and writes this device when both a token and a user are cached; on
        failure changes nothing. */
    method OnTokenFetched(result: FetchResult)
      requires Valid()
      modifies this
      ensures Valid()
      ensures subscribed == old(subscribed) && currentUser == old(currentUser)
      ensures hasAuthStateListener == old(hasAuthStateListener)
      ensures currentToken == (if result.Fetched? then result.token else old(currentToken))
      ensures effects == old(effects) +
        (if result.Fetched? && result.token.Some? && currentUser.Some?
         then [UpdateDeviceCall(currentUser.value, result.token)] else [])
      ensures !old(subscribed) ==> effects == old(effects)
    {
      if result.Fetched? {
        currentToken := result.token;
        if currentToken.Some? && currentUser.Some? {
          effects := effects + [UpdateDeviceCall(currentUser.value, currentToken)];
        }
      }
    }

    /** The auth state listener: adopts a newly signed-in user when none is cached and
        a token is, writing this device for it; forgets the cached user when the auth
        user signs out, without deleting anything; otherwise does nothing. It is called
        only while registered, between `subscribe` and `unsubscribe`. */
    method OnAuthStateChanged(authUser: Option<UserId>)
      requires Valid() && hasAuthStateListener
      modifies this
      ensures Valid()
      ensures subscribed == old(subscribed) && currentToken == old(currentToken)
      ensures hasAuthStateListener == old(hasAuthStateListener)
      ensures authUser.Some? && old(currentUser).None? && currentToken.Some? ==>
        currentUser == authUser && effects == old(effects) + [UpdateDeviceCall(authUser.value, currentToken)]
      ensures authUser.None? && old(currentUser).Some? ==>
        currentUser == None && effects == old(effects)
      ensures !(authUser.Some? && old(currentUser).None? && currentToken.Some?) &&
              !(authUser.None? && old(currentUser).Some?) ==>
        currentUser == old(currentUser) && effects == old(effects)
    {
      if authUser.Some? && currentUser.None? && currentToken.Some? {
        currentUser := authUser;
        effects := effects + [UpdateDeviceCall(currentUser.value, currentToken)];
      } else if authUser.None? && currentUser.Some? {
        currentUser := authUser;
      }
    }

    /** `unsubscribe`: removes the listener if one is held and clears all cached state. */
    method Unsubscribe()
      requires Valid()
      modifies this
      ensures Valid()
      ensures !subscribed && !hasAuthStateListener
      ensures currentUser == None && currentToken == None
      ensures effects == old(effects) +
        (if old(hasAuthStateListener) then [RemoveAuthStateListener] else [])
      ensures !old(subscribed) ==> effects == old(effects)
    {
      if hasAuthStateListener {
        effects := effects + [RemoveAuthStateListener];
        hasAuthStateListener := false;
      }
      currentToken := None;
      currentUser := None;
      subscribed := false;
    }

    /** `TokenReceiver.onReceive`: ignored unless subscribed. A null token while no
        token is cached reaches `token.equals` and throws, changing nothing. Otherwise
        the token is cached, and a user that is cached gets a write when the token
        differs from the one cached before. */
    method OnTokenReceived(token: Option<Token>) returns (outcome: Outcome<Error>)
      requires Valid()
      modifies this
      ensures Valid()
      ensures subscribed == old(subscribed) && currentUser == old(currentUser)
      ensures hasAuthStateListener == old(hasAuthStateListener)
      ensures outcome == (if old(subscribed) && token.None? && old(currentToken).None?
                          then Fail(NullPointer) else Pass)
      ensures !old(subscribed) || outcome.Fail? ==>
        currentToken == old(currentToken) && effects == old(effects)
      ensures old(subscribed) && outcome.Pass? ==>
        currentToken == token &&
        effects == old(effects) +
          (if token != old(currentToken) && currentUser.Some?
           then [UpdateDeviceCall(currentUser.value, token)] else [])
    {
      if !subscribed {
        return Pass;
      }
      var changed: bool;
      if token.None? && currentToken.Some? {
        changed := true;
      } else if token.None? {
        return Fail(NullPointer);
      } else {
        changed := currentToken != Some(token.value);
      }
      if changed && currentUser.Some? {
        effects := effects + [UpdateDeviceCall(currentUser.value, token)];
      }
      currentToken := token;
      outcome := Pass;
    }
  }

  /** The callback order the source leaves open: the auth state listener fires for a
      signed-in user before the token request completes. The listener needs a cached
      token, the token completion needs a cached user, so neither writes, the user is
      not adopted, and a later token rotation does not write either: by these calls
      this device is not registered for the user. It is registered only when the user
      next signs in (the listener then finds the cached token) or the host subscribes
      again. */
  method AuthBeforeTokenLosesRegistration(user: UserId, fetched: Token, rotated: Token)
    returns (store: FirebaseDeviceStore)
    ensures fresh(store)
    ensures store.Valid() && store.subscribed
    ensures store.currentUser == None && store.currentToken == Some(rotated)
    ensures store.effects == [RequestToken, AddAuthStateListener]
  {
    store := new FirebaseDeviceStore();
    var subscribed := store.Subscribe(true, None);
    store.OnAuthStateChanged(Some(user));
    store.OnTokenFetched(Fetched(Some(fetched)));
    var received := store.OnTokenReceived(Some(rotated));
  }

  /** The order the source expects: subscribing with a signed-in user and then
      receiving the token logs one device write for that user, and running the logged
      write as its transaction leaves the user's document listing this device with
      that token, whatever the store held before. */
  method SubscribeThenFetchRegisters(user: UserId, token: Token, before: Transactions.Store)
    returns (store: FirebaseDeviceStore, after: Transactions.Store)
    ensures fresh(store) && store.Valid()
    ensures store.subscribed && store.currentUser == Some(user) && store.currentToken == Some(token)
    ensures store.effects == [RequestToken, AddAuthStateListener, UpdateDeviceCall(user, Some(token))]
    ensures after == Perform(before, store.effects[2]) && user in after
    ensures var ds := GetDevices(after[user]);
      HasCurrentDevice(ds) &&
      forall i :: 0 <= i < |ds| && IsCurrent(ds[i]) ==> Get(ds[i], FcmTokenField) == Some(token)
  {
    store := new FirebaseDeviceStore();
    var subscribed := store.Subscribe(true, Some(user));
    store.OnTokenFetched(Fetched(Some(token)));
    after := Perform(before, UpdateDeviceCall(user, Some(token)));
    Transactions.UpdateRegistersToken(before, user, token);
  }

  /** After `unsubscribe`, a token request that completes late only caches the token,
      and a token rotation is ignored: no device call is logged. */
  method UnsubscribeSilencesLateCallbacks(user: UserId, fetched: Token, rotated: Token)
    returns (store: FirebaseDeviceStore)
    ensures fresh(store) && store.Valid() && !store.subscribed
    ensures store.currentUser == None && store.currentToken == Some(fetched)
    ensures store.effects == [RequestToken, AddAuthStateListener, RemoveAuthStateListener]
  {
    store := new FirebaseDeviceStore();
    var subscribed := store.Subscribe(true, Some(user));
    store.Unsubscribe();
    store.OnTokenFetched(Fetched(Some(fetched)));
    var received := store.OnTokenReceived(Some(rotated));
    store.SignOut();
  }
}
