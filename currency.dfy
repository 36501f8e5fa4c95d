/** The assets the card API accepts, each with a display name, the network it lives on and
    its number of decimals. */
module Currency {
  const Usdt: string := "USDT"
  const UsdtTrc20: string := "USDT_TRC20"
  const Trx: string := "TRX"
  const UsdtErc20: string := "USDT_ERC20"
  /** The native Ethereum asset: its code is the full name, not a ticker. */
  const Eth: string := "Ethereum"
  const UsdcErc20: string := "USDC_ERC20"
  const UsdtBsc: string := "USDT_BSC"
  const UsdtArb: string := "USDT_ARB"
  const UsdcArb: string := "USDC_ARB"

  datatype Asset = Asset(name: string, network: string, decimals: nat)

  /** `Currency::all()`. */
  const All: map<string, Asset> := map[
    Usdt := Asset("USDT", "USDT", 6),
    UsdtTrc20 := Asset("USDT (TRC20)", "Tron", 6),
    Trx := Asset("TRX", "Tron", 6),
    UsdtErc20 := Asset("USDT (ERC20)", "Ethereum", 6),
    Eth := Asset("Ethereum", "Ethereum", 18),
    UsdcErc20 := Asset("USDC (ERC20)", "Ethereum", 6),
    UsdtBsc := Asset("USDT (BEP20)", "BNB Smart Chain", 18),
    UsdtArb := Asset("USDT (Arbitrum)", "Arbitrum", 6),
    UsdcArb := Asset("USDC (Arbitrum)", "Arbitrum", 6)
  ]

  /** `Currency::isSupported($currency)`: `isset` on the table, so exactly the nine listed
      codes are supported (the ticker "ETH" is not one of them). */
  function IsSupported(currency: string): (supported: bool)
    ensures supported <==>
      currency == Usdt || currency == UsdtTrc20 || currency == Trx || currency == UsdtErc20 ||
      currency == Eth || currency == UsdcErc20 || currency == UsdtBsc || currency == UsdtArb ||
      currency == UsdcArb
  {
    currency in All
  }

  /** `Currency::label($currency)`: the entry's name, or "Unknown". */
  function Label(currency: string): (text: string)
    ensures IsSupported(currency) ==> text == All[currency].name
    ensures !IsSupported(currency) ==> text == "Unknown"
  {
    if currency in All then All[currency].name else "Unknown"
  }

  /** `Currency::network($currency)`: the entry's network, or "Unknown". */
  function Network(currency: string): (network: string)
    ensures IsSupported(currency) ==> network == All[currency].network
    ensures !IsSupported(currency) ==> network == "Unknown"
  {
    if currency in All then All[currency].network else "Unknown"
  }

  /** Every asset has 6 or 18 decimals. */
  lemma DecimalsSixOrEighteen(currency: string)
    requires IsSupported(currency)
    ensures All[currency].decimals == 6 || All[currency].decimals == 18
  {
  }

  /** The fallback label is never a real name, so it identifies unsupported codes. */
  lemma LabelKnownIffSupported(currency: string)
    ensures IsSupported(currency) <==> Label(currency) != "Unknown"
    ensures IsSupported(currency) <==> Network(currency) != "Unknown"
  {
  }
}
