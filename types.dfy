/** The records the application component keeps in its state slots. */
module Types {

  /** A value that may be missing (`null` in the source). */
  datatype Option<T> = None | Some(value: T)

  /** The logged-in user. Only `role` is read by the component ("admin" or "user");
      the other profile fields belong to the login screen and are kept opaque. */
  datatype User = User(id: string, role: string)

  /** The wallet slot: settled balance, accrual multiplier, time of the last claim
      (epoch milliseconds) and the amount mined since that claim. */
  datatype WalletState = WalletState(
    balance: real,
    hashrate: real,
    lastClaimTime: int,
    accumulatedMined: real)
}
