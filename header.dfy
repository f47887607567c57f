/** The site header: the brand link and the wallet area, which shows the shortened
    address and a Logout button when a wallet is connected, and "Not connected" otherwise.
    The wallet's `address` and `isConnected` are parameters. */
module Header {
  import opened Wrappers
  import opened Text

  const Ellipsis: string := "..."

  /** `address ? `${address.slice(0, 6)}...${address.slice(-4)}` : null`: the first six
      characters, "...", and the last four. A missing or empty address gives null. */
  function ShortAddress(address: Option<string>): (r: Option<string>)
    ensures r.None? <==> address.None? || address.value == ""
    ensures r.Some? ==> var a := address.value; var n := |a|;
      var head, tail := (if n < 6 then n else 6), (if n < 4 then n else 4);
      && |r.value| == head + 3 + tail
      && r.value[..head] == a[..head]
      && r.value[head..head + 3] == Ellipsis
      && r.value[head + 3..] == a[n - tail..]
  {
    if address.None? || address.value == "" then None
    else Some(SliceTo(address.value, 6) + Ellipsis + SliceLast(address.value, 4))
  }

  /** An address of ten characters or more shortens to thirteen: its first six, "..." at
      positions 6 to 8, and its last four. */
  lemma ShortAddressOfLongAddress(a: string)
    requires |a| >= 10
    ensures var r := ShortAddress(Some(a)).value;
      && |r| == 13
      && r[..6] == a[..6]
      && r[6..9] == "..."
      && r[9..] == a[|a| - 4..]
  {
  }

  /** The short form keeps only the ends: addresses that share their first six and last
      four characters look the same. */
  lemma ShortAddressKeepsOnlyEnds(a: string, b: string)
    requires |a| >= 10 && |b| >= 10
    requires a[..6] == b[..6] && a[|a| - 4..] == b[|b| - 4..]
    ensures ShortAddress(Some(a)) == ShortAddress(Some(b))
  {
  }

  /** The wallet area of the header. A connected wallet's area shows the short address
      (nothing when it is null) and the Logout button. */
  datatype WalletArea = WalletInfo(text: string) | NotConnected

  function Wallet(isConnected: bool, address: Option<string>): (w: WalletArea)
    ensures w.NotConnected? <==> !isConnected
    ensures w.WalletInfo? ==>
      w.text == (if ShortAddress(address).Some? then ShortAddress(address).value else "")
  {
    if !isConnected then NotConnected
    else
      var short := ShortAddress(address);
      WalletInfo(if short.Some? then short.value else "")
  }

  /** A connected wallet with a long address shows a text of thirteen characters that
      begins and ends like the address. */
  lemma ConnectedShowsAddressEnds(a: string)
    requires |a| >= 10
    ensures var w := Wallet(true, Some(a));
      w.WalletInfo? && |w.text| == 13 && w.text[..6] == a[..6] && w.text[9..] == a[|a| - 4..]
  {
  }
}
