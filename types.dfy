/** Value types shared by the command layer of mm-mnemonic. */
module Types {

  /** An optional value: Python's `X | None`. */
  datatype Option<+T> = None | Some(value: T) {
    /** The value, or `default` when there is none. */
    function GetOr(default: T): (r: T)
      ensures Some? ==> r == value
      ensures None? ==> r == default
    {
      match this
      case Some(v) => v
      case None => default
    }
  }

  /** A value or an error: a call that either returns or raises. */
  datatype Result<+T, +E> = Ok(value: T) | Err(error: E)

  /** The supported networks (mm_mnemonic.types.Coin). */
  datatype Coin = BTC | ETH | SOL | TRX
}
