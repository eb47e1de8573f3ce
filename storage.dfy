/** The component's use of the browser's key-value store: reading both state
    slots at start-up, writing them back after each change, and removing the
    stored user at logout. */
module Storage {
  import opened Types

  /** The key-value text store. */
  type Store = map<string, string>

  const UserKey: string := "minier_user"
  const WalletKey: string := "minier_wallet"

  /** Serialisation of the two records. `decode` answers `None` where parsing
      throws (or, for the user, yields a falsy value). */
  datatype Codec = Codec(
    encodeUser: User -> string,
    decodeUser: string -> Option<User>,
    encodeWallet: WalletState -> string,
    decodeWallet: string -> Option<WalletState>)

  /** The text written for this user is non-empty and parses back to the user.
      Stated per value: a wallet holds real numbers, which no text encoding
      reproduces all of, so a round trip can only be asked of the values at hand. */
  predicate UserRoundTrips(c: Codec, u: User)
  {
    c.encodeUser(u) != "" && c.decodeUser(c.encodeUser(u)) == Some(u)
  }

  /** The text written for this wallet is non-empty and parses back to the wallet. */
  predicate WalletRoundTrips(c: Codec, w: WalletState)
  {
    c.encodeWallet(w) != "" && c.decodeWallet(c.encodeWallet(w)) == Some(w)
  }

  /** Any given user and wallet are reproduced by some codec, so the round-trip
      hypotheses above can be met. */
  lemma RoundTripsSatisfiable(u: User, w: WalletState)
    ensures exists c :: UserRoundTrips(c, u) && WalletRoundTrips(c, w)
  {
    var c := Codec(_ => "u", _ => Some(u), _ => "w", _ => Some(w));
    assert UserRoundTrips(c, u) && WalletRoundTrips(c, w);
  }

  /** The stored text under `key` when it is truthy: a missing key and an empty
      string both count as nothing saved. */
  function Saved(store: Store, key: string): (r: Option<string>)
    ensures r.Some? <==> key in store && store[key] != ""
    ensures r.Some? ==> r.value == store[key]
  {
    if key in store && store[key] != "" then Some(store[key]) else None
  }

  /** The user found in the store at start-up. */
  function LoadUser(store: Store, c: Codec): (r: Option<User>)
    ensures Saved(store, UserKey).None? ==> r == None
    ensures r.Some? <==> Saved(store, UserKey).Some? && c.decodeUser(store[UserKey]).Some?
    ensures r.Some? ==> c.decodeUser(store[UserKey]) == r
  {
    match Saved(store, UserKey)
    case None => None
    case Some(text) => c.decodeUser(text)
  }

  /** The wallet found in the store, if any parses. */
  function StoredWallet(store: Store, c: Codec): Option<WalletState>
  {
    match Saved(store, WalletKey)
    case None => None
    case Some(text) => c.decodeWallet(text)
  }

  /** The wallet a fresh install starts with. */
  function DefaultWallet(now: int): WalletState
  {
    WalletState(1.0, 1.0, now, 0.0)
  }

  /** The wallet at start-up: the stored one, or the default when the key is
      missing, empty or does not parse. */
  function LoadWallet(store: Store, c: Codec, now: int): (r: WalletState)
    ensures Saved(store, WalletKey).None? ==> r == WalletState(1.0, 1.0, now, 0.0)
    ensures Saved(store, WalletKey).Some? && c.decodeWallet(store[WalletKey]).None?
            ==> r == WalletState(1.0, 1.0, now, 0.0)
    ensures Saved(store, WalletKey).Some? && c.decodeWallet(store[WalletKey]).Some?
            ==> r == c.decodeWallet(store[WalletKey]).value
  {
    match StoredWallet(store, c)
    case None => DefaultWallet(now)
    case Some(w) => w
  }

  /** The user effect: writes the user when there is one, does nothing otherwise. */
  function SaveUser(store: Store, c: Codec, user: Option<User>): (r: Store)
    ensures user.None? ==> r == store
    ensures r - {UserKey} == store - {UserKey}
    ensures forall c' :: StoredWallet(r, c') == StoredWallet(store, c')
    ensures user.Some? ==> UserKey in r && r[UserKey] == c.encodeUser(user.value)
    ensures user.Some? && UserRoundTrips(c, user.value) ==> LoadUser(r, c) == user
  {
    if user.Some? then store[UserKey := c.encodeUser(user.value)] else store
  }

  /** The wallet effect: writes the wallet unconditionally. */
  function SaveWallet(store: Store, c: Codec, w: WalletState): (r: Store)
    ensures WalletKey in r && r[WalletKey] == c.encodeWallet(w)
    ensures r - {WalletKey} == store - {WalletKey}
    ensures forall c' :: LoadUser(r, c') == LoadUser(store, c')
    ensures WalletRoundTrips(c, w) ==> StoredWallet(r, c) == Some(w)
  {
    store[WalletKey := c.encodeWallet(w)]
  }

  /** The removal done by the logout handler. */
  function RemoveUser(store: Store): (r: Store)
    ensures UserKey !in r
    ensures r - {UserKey} == store - {UserKey}
    ensures forall c :: LoadUser(r, c) == None
    ensures forall c :: StoredWallet(r, c) == StoredWallet(store, c)
  {
    store - {UserKey}
  }

  /** Writing a wallet and reading it back gives the same wallet, whatever the
      time of the read. */
  lemma WalletRoundTrip(store: Store, c: Codec, w: WalletState, now: int)
    requires WalletRoundTrips(c, w)
    ensures LoadWallet(SaveWallet(store, c, w), c, now) == w
  {
  }

  /** Writing a user and reading it back gives the same user. */
  lemma UserRoundTrip(store: Store, c: Codec, u: User)
    requires UserRoundTrips(c, u)
    ensures LoadUser(SaveUser(store, c, Some(u)), c) == Some(u)
  {
  }
}
