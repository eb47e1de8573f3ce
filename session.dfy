/** The component's whole state as a value, and each of its transitions as a
    function from the state before to the state after (including the store
    writes its effects make). The class in AppComponent is specified by these. */
module Session {
  import opened Types
  import Mining
  import opened Storage
  import opened Routing

  datatype AppState = AppState(
    user: Option<User>,
    wallet: WalletState,
    activeTab: string,
    store: Store)

  /** The tab selected at start-up and after logout. */
  const DefaultTab: string := "dashboard"

  /** The store mirrors the live state: the wallet key holds the live wallet's
      text; the user key holds the live user's text when there is a user, and
      otherwise nothing that loads as a user. */
  predicate Mirrored(s: AppState, c: Codec)
  {
    && WalletKey in s.store && s.store[WalletKey] == c.encodeWallet(s.wallet)
    && match s.user
       case Some(u) => UserKey in s.store && s.store[UserKey] == c.encodeUser(u)
       case None => LoadUser(s.store, c) == None
  }

  /** The live user and wallet are ones the codec reproduces. */
  predicate StateRoundTrips(s: AppState, c: Codec)
  {
    WalletRoundTrips(c, s.wallet) && (s.user.Some? ==> UserRoundTrips(c, s.user.value))
  }

  /** Mounting the component: both slots are read from the store, the first tab
      is the dashboard, and the two persistence effects run once. */
  function Init(store0: Store, c: Codec, now: int): (r: AppState)
    ensures r.user == LoadUser(store0, c) && r.wallet == LoadWallet(store0, c, now)
    ensures r.activeTab == DefaultTab
    ensures r.store - {UserKey, WalletKey} == store0 - {UserKey, WalletKey}
    ensures Mirrored(r, c)
  {
    var user := LoadUser(store0, c);
    var wallet := LoadWallet(store0, c, now);
    AppState(user, wallet, DefaultTab, SaveWallet(SaveUser(store0, c, user), c, wallet))
  }

  /** One second of the accrual timer, which only runs while a user is present. */
  function Tick(s: AppState, c: Codec, baseRate: real): (r: AppState)
    ensures s.user.None? ==> r == s
    ensures s.user.Some? ==> r.wallet == Mining.Tick(s.wallet, baseRate)
    ensures r.user == s.user && r.activeTab == s.activeTab
    ensures r.store - {WalletKey} == s.store - {WalletKey}
    ensures Mirrored(s, c) ==> Mirrored(r, c)
  {
    if s.user.None? then s
    else
      var w := Mining.Tick(s.wallet, baseRate);
      s.(wallet := w, store := SaveWallet(s.store, c, w))
  }

  /** `n` seconds of the timer with nothing else happening. */
  function Ticks(s: AppState, c: Codec, baseRate: real, n: nat): AppState
    decreases n
  {
    if n == 0 then s else Tick(Ticks(s, c, baseRate, n - 1), c, baseRate)
  }

  /** The claim handler, followed by the wallet effect. */
  function Claim(s: AppState, c: Codec, now: int): (r: AppState)
    ensures r.wallet == Mining.Claim(s.wallet, now)
    ensures r.user == s.user && r.activeTab == s.activeTab
    ensures r.store - {WalletKey} == s.store - {WalletKey}
    ensures Mirrored(s, c) ==> Mirrored(r, c)
  {
    var w := Mining.Claim(s.wallet, now);
    s.(wallet := w, store := SaveWallet(s.store, c, w))
  }

  /** A child panel replacing the balance and hashrate, followed by the wallet effect. */
  function SetBalanceHashrate(s: AppState, c: Codec, balance: real, hashrate: real): (r: AppState)
    ensures r.wallet == Mining.SetBalanceHashrate(s.wallet, balance, hashrate)
    ensures r.wallet.balance == balance && r.wallet.hashrate == hashrate
    ensures r.wallet.accumulatedMined == s.wallet.accumulatedMined
    ensures r.wallet.lastClaimTime == s.wallet.lastClaimTime
    ensures r.user == s.user && r.activeTab == s.activeTab
    ensures r.store - {WalletKey} == s.store - {WalletKey}
    ensures Mirrored(s, c) ==> Mirrored(r, c)
  {
    var w := Mining.SetBalanceHashrate(s.wallet, balance, hashrate);
    s.(wallet := w, store := SaveWallet(s.store, c, w))
  }

  /** The login screen handing over a user, followed by the user effect. */
  function Login(s: AppState, c: Codec, u: User): (r: AppState)
    ensures r.user == Some(u)
    ensures r.wallet == s.wallet && r.activeTab == s.activeTab
    ensures r.store - {UserKey} == s.store - {UserKey}
    ensures Mirrored(s, c) ==> Mirrored(r, c)
  {
    s.(user := Some(u), store := SaveUser(s.store, c, Some(u)))
  }

  /** The logout handler: no user, no stored user, back to the first tab; the
      wallet and its stored copy are left alone. */
  function Logout(s: AppState): (r: AppState)
    ensures r.user == None && UserKey !in r.store && r.activeTab == DefaultTab
    ensures r.wallet == s.wallet
    ensures r.store - {UserKey} == s.store - {UserKey}
    ensures forall c :: Mirrored(s, c) ==> Mirrored(r, c)
  {
    s.(user := None, store := RemoveUser(s.store), activeTab := DefaultTab)
  }

  /** A navigation button or the dashboard selecting a tab. */
  function SelectTab(s: AppState, tab: string): (r: AppState)
    ensures r.activeTab == tab
    ensures r.user == s.user && r.wallet == s.wallet && r.store == s.store
    ensures forall c :: Mirrored(s, c) ==> Mirrored(r, c)
  {
    s.(activeTab := tab)
  }

  /** What the component renders. */
  function View(s: AppState): (r: Screen)
    ensures r == Auth <==> s.user.None?
    ensures s.user.Some? ==> r == Main(Route(s.activeTab, s.user.value.role))
  {
    match s.user
    case None => Auth
    case Some(u) => Main(Route(s.activeTab, u.role))
  }

  /** While nobody is logged in the timer is off: any number of seconds change nothing. */
  lemma {:induction false} LoggedOutTicksInert(s: AppState, c: Codec, baseRate: real, n: nat)
    requires s.user.None?
    ensures Ticks(s, c, baseRate, n) == s
  {
    if n > 0 {
      LoggedOutTicksInert(s, c, baseRate, n - 1);
    }
  }

  /** While a user is logged in, `n` seconds are `n` wallet ticks; the user and the
      tab stay, and the store keeps mirroring the state. */
  lemma {:induction false} LoggedInTicks(s: AppState, c: Codec, baseRate: real, n: nat)
    requires s.user.Some?
    ensures Ticks(s, c, baseRate, n).wallet == Mining.Ticks(s.wallet, baseRate, n)
    ensures Ticks(s, c, baseRate, n).user == s.user
    ensures Ticks(s, c, baseRate, n).activeTab == s.activeTab
    ensures Mirrored(s, c) ==> Mirrored(Ticks(s, c, baseRate, n), c)
  {
    if n > 0 {
      LoggedInTicks(s, c, baseRate, n - 1);
    }
  }

  /** Logging out stops accrual, and logging back in resumes it from the wallet
      as it was at logout, not from a reset one. */
  lemma LogoutThenLoginResumes(s: AppState, c: Codec, baseRate: real, idle: nat, u: User, n: nat)
    ensures Ticks(Logout(s), c, baseRate, idle).wallet == s.wallet
    ensures Ticks(Login(Ticks(Logout(s), c, baseRate, idle), c, u), c, baseRate, n).wallet
         == Mining.Ticks(s.wallet, baseRate, n)
  {
    LoggedOutTicksInert(Logout(s), c, baseRate, idle);
    LoggedInTicks(Login(Logout(s), c, u), c, baseRate, n);
  }

  /** A fresh start from the store of a mirrored state restores its user and
      its wallet, whatever the clock says, provided the codec reproduces them. */
  lemma ReloadRestores(s: AppState, c: Codec, now: int)
    requires Mirrored(s, c) && StateRoundTrips(s, c)
    ensures Init(s.store, c, now).user == s.user
    ensures Init(s.store, c, now).wallet == s.wallet
  {
  }

  /** After a logout, a fresh start shows the login screen and keeps the wallet. */
  lemma ReloadAfterLogout(s: AppState, c: Codec, now: int)
    requires Mirrored(s, c) && WalletRoundTrips(c, s.wallet)
    ensures View(Init(Logout(s).store, c, now)) == Auth
    ensures Init(Logout(s).store, c, now).wallet == s.wallet
  {
    ReloadRestores(Logout(s), c, now);
  }
}
