# IDR Minier: wallet and session model

A Dafny model of the state machine inside the top-level `App` component of a
client-side "mining" game. The component keeps three state slots — the logged-in
user (or none), the wallet (`balance`, `hashrate`, `lastClaimTime`,
`accumulatedMined`) and the selected tab — and mirrors the user and the wallet
into the browser's key-value store under `minier_user` and `minier_wallet`.

- `types.dfy` (`Types`): the user and wallet records and an `Option`.
- `mining.dfy` (`Mining`): the two wallet updaters, the one-second accrual tick
  (`accumulatedMined += hashrate * BASE_MINING_RATE / 86400`) and the claim
  handler, with the closed form of repeated ticks and the conservation of
  `balance + accumulatedMined` across a claim.
- `storage.dfy` (`Storage`): the store as a `map<string, string>`, start-up
  loading with its fallbacks (no user; the default wallet `1.0 / 1.0 / now / 0`),
  the two persistence effects and the logout removal, and the round trips.
- `routing.dfy` (`Routing`): the `renderContent` switch and the login gate.
- `session.dfy` (`Session`): the whole state as a value and every transition
  (mount, tick, claim, login, logout, tab selection, a child panel's wallet
  update) as a function, with the invariant that the store always reloads to the
  live user and wallet, and the session lemmas (no accrual while logged out,
  accrual resumes from the kept wallet after logging back in).
- `app.dfy` (`AppComponent`): the component as a class whose fields the
  handlers update in place; each method is specified by the matching
  `Session` transition and keeps the store-mirrors-state invariant.

Modelling choices:
- Numbers are Dafny `real` (no IEEE-754 rounding); times are `int` milliseconds.
- `BASE_MINING_RATE` comes from `constants.tsx`, which is not part of this
  model; it is the parameter `baseRate`, assumed non-negative only where
  monotonicity needs it.
- `Date.now()` is the parameter `now`.
- `JSON.stringify`/`JSON.parse` are a `Codec` parameter with function-valued
  fields; `decode` answers `None` where parsing throws. Whether a value
  survives a write and a read is stated per value (`UserRoundTrips(c, u)`,
  `WalletRoundTrips(c, w)`): wallets hold real numbers, and no text encoding
  reproduces every real, so no codec round-trips all wallets.
- The invariant every transition keeps, for every codec, is `Mirrored`: the
  wallet key holds the text of the live wallet; the user key holds the text of
  the live user when there is one, and otherwise nothing that loads as a user.
  Reloading then restores the live state whenever the codec reproduces the two
  live values.
- A stored value counts as saved only when it is present and non-empty, as the
  source's truthiness test `saved ? … : …` does.
- The component itself never checks that `balance` stays non-negative or that
  `hashrate` stays positive, so the model does not assume either; accrual is
  non-decreasing only when `hashrate * BASE_MINING_RATE >= 0`, and the lemmas
  that rely on it say so.
- The persistence effects run after each state change; the model performs the
  store write right after the slot update it follows.

## Model

| member | source | states |
|---|---|---|
| Mining.RatePerSecond | App.tsx:86 | one tick's amount is exactly a day's amount at this hashrate divided over 86400 seconds, and is non-negative when hashrate and base rate are |
| Mining.Tick | App.tsx:85-91 | a tick changes only `accumulatedMined`, raising it by one second's rate; it never lowers it when hashrate and base rate are non-negative |
| Mining.TicksClosedForm | App.tsx:84-92 | after `n` ticks the wallet equals the start with `accumulatedMined + n * rate` and every other field unchanged |
| Mining.TicksMonotone | App.tsx:86-89 | with non-negative hashrate and base rate, more ticks never give a smaller `accumulatedMined` |
| Mining.Claim | App.tsx:96-103 | a claim conserves `balance + accumulatedMined`, zeroes the accumulator, stamps the claim time, keeps the hashrate, and leaves the balance alone when nothing was pending |
| Mining.ClaimTwice | App.tsx:97-102 | two claims in a row equal the second alone, and the second adds nothing to the balance |
| Mining.TicksThenClaim | App.tsx:84-103 | mining `n` seconds then claiming settles old balance + old backlog + `n * rate` and leaves nothing pending |
| Mining.SetBalanceHashrate | App.tsx:119-121 | a child panel's wallet update sets balance and hashrate and leaves `accumulatedMined` and `lastClaimTime` untouched |
| Mining.SpendSurvivesTick | App.tsx:85-91 | a tick reads the current wallet, so a balance set just before it is kept and the new hashrate is the one that accrues |
| Storage.Saved | App.tsx:34-35 | a stored value is used exactly when its key is present and the text is non-empty |
| Storage.LoadUser | App.tsx:32-40 | the start-up user is none when the key is missing, empty or unparseable, and otherwise the parsed user |
| Storage.LoadWallet | App.tsx:42-59 | the start-up wallet is exactly `{1.0, 1.0, now, 0}` when the key is missing, empty or unparseable, and otherwise the parsed wallet |
| Storage.SaveUser | App.tsx:72-76 | the user effect writes only when a user is present, stores that user's text under the user key, touches no other key, and reloads to that user when the codec reproduces it |
| Storage.SaveWallet | App.tsx:78-80 | the wallet effect always stores the wallet's text under the wallet key, touches no other key, leaves the stored user as it was, and reloads to that wallet when the codec reproduces it |
| Storage.RemoveUser | App.tsx:107 | removing the user key leaves no stored user and every other key, the wallet's included, as it was |
| Storage.WalletRoundTrip | App.tsx:42-59 | saving a wallet the codec reproduces and loading it at any time gives that wallet back, never the default |
| Storage.UserRoundTrip | App.tsx:32-40 | saving a user the codec reproduces and loading it gives that user back |
| Routing.Route | App.tsx:115-127 | the admin panel is chosen iff the tab is `admin` and the role is `admin`; every other listed tab opens its own panel; an `admin` tab without the role and any unlisted tab give the dashboard |
| Routing.RouteReachesEveryPanel | App.tsx:116-124 | each panel is what its own tab routes to, for any user allowed to see it |
| Session.Init | App.tsx:32-80 | mounting reads both slots from the store, selects the dashboard, writes only the user and wallet keys, and leaves a store that mirrors the live state, whatever the codec and whatever was stored |
| Session.Tick | App.tsx:82-94 | with no user a tick changes nothing; with a user the wallet takes one accrual tick; user, tab and every key but the wallet key stay; the store keeps mirroring the state |
| Session.Claim | App.tsx:96-103 | the wallet is claimed; user, tab and every key but the wallet key stay; the store keeps mirroring the state |
| Session.SetBalanceHashrate | App.tsx:119-121 | a child panel's wallet update installs the new balance and hashrate, keeps the accumulator and claim time, user, tab and every key but the wallet key, and keeps the store mirror |
| Session.Login | App.tsx:111-113 | login sets the user, keeps wallet, tab and every key but the user key, and keeps the store mirror |
| Session.Logout | App.tsx:105-109 | logout clears the user, removes the user key, selects the dashboard, keeps the wallet and every other stored key, and keeps the store mirror |
| Session.SelectTab | App.tsx:155-159 | selecting a tab changes only the tab and keeps the store mirror |
| Session.View | App.tsx:111-127 | the login screen shows iff no user is present; otherwise the routed panel for the tab and the user's role |
| Session.LoggedOutTicksInert | App.tsx:82-83 | while logged out, any number of elapsed seconds leave the whole state unchanged |
| Session.LoggedInTicks | App.tsx:82-94 | while logged in, `n` seconds apply `n` wallet ticks and keep user, tab and the store mirror |
| Session.LogoutThenLoginResumes | App.tsx:105-109 | after logout no time changes the wallet, and after logging back in accrual continues from the wallet kept at logout |
| Session.ReloadRestores | App.tsx:72-80 | restarting from a mirroring store restores the live user and wallet whenever the codec reproduces them |
| Session.ReloadAfterLogout | App.tsx:105-109 | restarting after a logout shows the login screen, and keeps the wallet whenever the codec reproduces it |
| AppComponent.App.constructor | App.tsx:32-80 | the mounted component, for any store and codec, is `Session.Init` of the store, and its store mirrors its state |
| AppComponent.App.Tick | App.tsx:82-94 | a timer firing is `Session.Tick`; with no user nothing changes |
| AppComponent.App.Claim | App.tsx:96-103 | the claim handler is `Session.Claim` and conserves `balance + accumulatedMined` |
| AppComponent.App.SetBalanceHashrate | App.tsx:119-121 | a child panel's `setWallet` is `Session.SetBalanceHashrate` |
| AppComponent.App.Login | App.tsx:112 | the login callback is `Session.Login` |
| AppComponent.App.Logout | App.tsx:105-109 | the logout handler is `Session.Logout`; the wallet and its stored text are unchanged |
| AppComponent.App.SelectTab | App.tsx:155-159 | a navigation button is `Session.SelectTab` |
| AppComponent.App.Render | App.tsx:111-127 | the rendered screen is the login screen iff no user is present, and the admin tab shows the admin panel iff the role is admin |

## Left out

- `index.tsx` (DOM root lookup, React mounting and the static failure screen): host plumbing with no state logic.
- The start-up readiness signal (`setTimeout` calling `window.markAppAsReady` after 500 ms): a host timing callback.
- Timer mechanics: `setInterval`/`clearInterval` and effect clean-up are not modelled; a tick is an explicit call that does nothing while no user is present, which is what the interval's existence condition amounts to.
- JSX layout, the header, the navigation bar, `NavButton` and the `toFixed(4)` balance display.
- The child panels (dashboard, mining, shop, wallet view, missions, referral, support, login, admin) are not part of this model; their only effect on this state kept here is a `setWallet` that replaces balance and hashrate (`SetBalanceHashrate`) and a tab selection (`SelectTab`).
- Real `localStorage`, `JSON.parse` and `JSON.stringify`: the store is a map and serialisation is the `Codec` parameter. A stored wallet text that parses without throwing to something that is not a wallet (for instance `null`) is outside the model; in the source it would replace the wallet with that value.
- WalletRoundTrip: a written wallet is promised to reload only when the codec reproduces that wallet (`WalletRoundTrips`); serialising numbers reproduces only finite doubles, and the model has no such domain, so the round trip is a hypothesis about the value at hand rather than a fact about all wallets. UserRoundTrip, SaveUser, SaveWallet, ReloadRestores and ReloadAfterLogout carry the same per-value hypothesis.
- `console.error` logging of a corrupt stored user.
- IEEE-754 arithmetic: numbers are reals, so rounding, `NaN` and infinities are not modelled.
- `Date.now()` and `BASE_MINING_RATE` are parameters, not values read from the host or from `constants.tsx`.
- React's batching and the timing of effects: each effect's store write is performed right after the state change that triggers it.
