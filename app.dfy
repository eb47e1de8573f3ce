/** The application component: three state slots and the store, changed in place
    by its handlers, its timer and its persistence effects. Each method performs
    the source's setter calls and store writes in their order; the matching
    transition of Session is its specification, and the method's postcondition
    ties the two together. */
module AppComponent {
  import opened Types
  import Mining
  import opened Storage
  import opened Routing
  import Session

  class App {
    var user: Option<User>
    var wallet: WalletState
    var activeTab: string
    var store: Store
    /** How the records are written to and read from the store. */
    const codec: Codec
    /** The base mining rate: the amount one unit of hashrate mines per day. */
    const baseRate: real

    /** The state slots and the store as one value. */
    ghost function State(): Session.AppState
      reads this
    {
      Session.AppState(user, wallet, activeTab, store)
    }

    /** The store always mirrors the live state. */
    ghost predicate Valid()
      reads this
    {
      Session.Mirrored(State(), codec)
    }

    /** Mounting: the lazy initialisers read the store, then both effects run. */
    constructor (store0: Store, codec: Codec, baseRate: real, now: int)
      ensures Valid()
      ensures State() == Session.Init(store0, codec, now)
      ensures this.codec == codec && this.baseRate == baseRate
    {
      this.codec := codec;
      this.baseRate := baseRate;
      user := LoadUser(store0, codec);
      wallet := LoadWallet(store0, codec, now);
      activeTab := Session.DefaultTab;
      store := store0;
      new;
      store := SaveUser(store, codec, user);
      store := SaveWallet(store, codec, wallet);
    }

    /** One firing of the one-second timer, which exists only while a user is present. */
    method Tick()
      requires Valid()
      modifies this
      ensures Valid()
      ensures State() == Session.Tick(old(State()), codec, baseRate)
      ensures old(user).None? ==> unchanged(this)
    {
      if user.Some? {
        wallet := Mining.Tick(wallet, baseRate);
        store := SaveWallet(store, codec, wallet);
      }
    }

    /** The claim handler. */
    method Claim(now: int)
      requires Valid()
      modifies this
      ensures Valid()
      ensures State() == Session.Claim(old(State()), codec, now)
      ensures wallet.balance + wallet.accumulatedMined == old(wallet.balance + wallet.accumulatedMined)
    {
      wallet := Mining.Claim(wallet, now);
      store := SaveWallet(store, codec, wallet);
    }

    /** A child panel calling `setWallet` to spend or upgrade. */
    method SetBalanceHashrate(balance: real, hashrate: real)
      requires Valid()
      modifies this
      ensures Valid()
      ensures State() == Session.SetBalanceHashrate(old(State()), codec, balance, hashrate)
    {
      wallet := Mining.SetBalanceHashrate(wallet, balance, hashrate);
      store := SaveWallet(store, codec, wallet);
    }

    /** The login screen's callback. */
    method Login(u: User)
      requires Valid()
      modifies this
      ensures Valid()
      ensures State() == Session.Login(old(State()), codec, u)
    {
      user := Some(u);
      store := SaveUser(store, codec, user);
    }

    /** The logout handler: clear the user, remove its key, reset the tab. */
    method Logout()
      requires Valid()
      modifies this
      ensures Valid()
      ensures State() == Session.Logout(old(State()))
      ensures wallet == old(wallet) && WalletKey in store && store[WalletKey] == old(store[WalletKey])
    {
      user := None;
      store := RemoveUser(store);
      activeTab := Session.DefaultTab;
    }

    /** A navigation button selecting a tab. */
    method SelectTab(tab: string)
      requires Valid()
      modifies this
      ensures Valid()
      ensures State() == Session.SelectTab(old(State()), tab)
    {
      activeTab := tab;
    }

    /** What the component renders now. */
    method Render() returns (screen: Screen)
      ensures screen == Auth <==> user.None?
      ensures user.Some? && activeTab == "admin" ==>
                (screen == Main(Admin) <==> user.value.role == "admin")
      ensures screen == Session.View(State())
    {
      if user.None? {
        screen := Auth;
      } else {
        screen := Main(Route(activeTab, user.value.role));
      }
    }
  }
}
