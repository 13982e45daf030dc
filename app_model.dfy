/** The three pieces of state held by the App component of the GIF portal client
    (walletAddress, inputValue, gifList), and the effect of each of its handlers on
    them, as pure transitions. The injected wallet and the Anchor account client
    appear only through the results their calls settle to. */
module AppModel {

  datatype Option<T> = None | Some(value: T)

  /** What `publicKey.toString()` yields: the base58 text of a public key, which is
      never empty (the all-zero key prints as 32 ones). */
  type PublicKeyText = s: string | |s| > 0 witness "11111111111111111111111111111111"

  /** The component state: `walletAddress` is null until a wallet connects,
      `inputValue` is the text in the link box, and `gifList` is None (JS null)
      after a failed fetch. */
  datatype AppState = AppState(
    walletAddress: Option<PublicKeyText>,
    inputValue: string,
    gifList: Option<seq<string>>)

  /** The initial values passed to `useState`. */
  const Initial: AppState := AppState(None, "", Some([]))

  /** What a call to `solana.connect(...)` settles to. */
  datatype ConnectReply = Resolved(key: PublicKeyText) | Rejected

  /** `window.solana` as a handler finds it: missing, or an injected wallet whose
      `isPhantom` flag and connect reply are given. */
  datatype Wallet = Absent | Present(isPhantom: bool, reply: ConnectReply)

  /** What fetching the base account settles to: its `gifList`, or any failure
      (building the provider or program, transport, deserialization). */
  datatype FetchReply = Fetched(entries: seq<string>) | FetchFailed

  /** How the startup probe ended: an alert for a missing wallet, nothing for a
      non-Phantom wallet, a recorded key, or a logged rejection. */
  datatype ProbeReport = AlertedNoWallet | NotPhantom | ProbeConnected(key: PublicKeyText) | ProbeRejectionLogged

  /** How the connect button's handler ended; `ConnectRejected` is the rejection it
      does not catch, so its promise rejects. */
  datatype ConnectOutcome = NoWallet | WalletConnected(key: PublicKeyText) | ConnectRejected

  /** What the `walletAddress` effect did. */
  datatype FetchOutcome = NotAttempted | ListLoaded | ListReset

  /** How `sendGif` ended; `SpreadOfNull` is the TypeError thrown by spreading a
      null list, before either setter runs. */
  datatype SendOutcome = EmptyIgnored | Appended | SpreadOfNull

  /** The state after a handler, with what the handler reported. */
  datatype Transition<R> = Transition(next: AppState, outcome: R)

  /** JavaScript truthiness of `walletAddress` (the test in the fetch effect and in
      the view choice): null and the empty string are falsy. Because a key text is
      never empty, this is exactly "not null". */
  function JsTruthy(address: Option<PublicKeyText>): (b: bool)
    ensures b <==> address.Some?
  {
    match address
    case None => false
    case Some(key) => key != ""
  }

  /** The probe records a key only from a Phantom wallet whose trusted connect resolved. */
  predicate TrustedGrant(w: Wallet) {
    w.Present? && w.isPhantom && w.reply.Resolved?
  }

  /** The connect button records a key from any injected wallet whose connect resolved. */
  predicate Grant(w: Wallet) {
    w.Present? && w.reply.Resolved?
  }

  /** `checkIfWalletIsConnected`: the silent probe run on page load. */
  function Probe(s: AppState, w: Wallet): (t: Transition<ProbeReport>)
    ensures TrustedGrant(w) ==>
              t.next == s.(walletAddress := Some(w.reply.key)) && t.outcome == ProbeConnected(w.reply.key)
    ensures !TrustedGrant(w) ==> t.next == s
    ensures t.outcome == AlertedNoWallet <==> w.Absent?
    ensures t.outcome == NotPhantom <==> w.Present? && !w.isPhantom
    ensures t.outcome == ProbeRejectionLogged <==> w.Present? && w.isPhantom && w.reply.Rejected?
  {
    match w
    case Absent => Transition(s, AlertedNoWallet)
    case Present(isPhantom, reply) =>
      if !isPhantom then Transition(s, NotPhantom)
      else match reply
        case Resolved(key) => Transition(s.(walletAddress := Some(key)), ProbeConnected(key))
        case Rejected => Transition(s, ProbeRejectionLogged)
  }

  /** `connectWallet`: the user-initiated connect. It does not look at `isPhantom`
      and does not catch a rejection. */
  function Connect(s: AppState, w: Wallet): (t: Transition<ConnectOutcome>)
    ensures Grant(w) ==>
              t.next == s.(walletAddress := Some(w.reply.key)) && t.outcome == WalletConnected(w.reply.key)
    ensures !Grant(w) ==> t.next == s
    ensures t.outcome == NoWallet <==> w.Absent?
    ensures t.outcome == ConnectRejected <==> w.Present? && w.reply.Rejected?
  {
    match w
    case Absent => Transition(s, NoWallet)
    case Present(_, reply) =>
      match reply
      case Resolved(key) => Transition(s.(walletAddress := Some(key)), WalletConnected(key))
      case Rejected => Transition(s, ConnectRejected)
  }

  /** `onInputChange`: the link box's text replaces the buffer. */
  function InputChange(s: AppState, text: string): (r: AppState)
    ensures r.inputValue == text
    ensures r.walletAddress == s.walletAddress && r.gifList == s.gifList
  {
    s.(inputValue := text)
  }

  /** The list extension `[...gifList, inputValue]`: every earlier entry keeps its
      place and the new one comes last. */
  function Extend(list: seq<string>, link: string): (r: seq<string>)
    ensures |r| == |list| + 1
    ensures r[..|list|] == list && r[|list|] == link
  {
    list + [link]
  }

  /** `sendGif`: ignores an empty buffer; otherwise appends the buffer to the list
      and clears it, unless the list is null, where the spread throws first. */
  function Send(s: AppState): (t: Transition<SendOutcome>)
    ensures t.next.walletAddress == s.walletAddress
    ensures t.outcome == EmptyIgnored <==> s.inputValue == ""
    ensures t.outcome == SpreadOfNull <==> s.inputValue != "" && s.gifList.None?
    ensures t.outcome != Appended ==> t.next == s
    ensures t.outcome == Appended ==>
              t.next.inputValue == "" && t.next.gifList == Some(Extend(s.gifList.value, s.inputValue))
  {
    if |s.inputValue| > 0 then
      match s.gifList
      case None => Transition(s, SpreadOfNull)
      case Some(list) => Transition(s.(gifList := Some(Extend(list, s.inputValue)), inputValue := ""), Appended)
    else
      Transition(s, EmptyIgnored)
  }

  /** `getGifList`, result handling: a fetched list replaces the local one
      wholesale; any failure sets the list to null. */
  function FetchResult(s: AppState, reply: FetchReply): (r: AppState)
    ensures r.walletAddress == s.walletAddress && r.inputValue == s.inputValue
    ensures r.gifList.Some? <==> reply.Fetched?
    ensures reply.Fetched? ==> r.gifList.value == reply.entries
  {
    match reply
    case Fetched(entries) => s.(gifList := Some(entries))
    case FetchFailed => s.(gifList := None)
  }

  /** The effect keyed on `walletAddress`: a fetch is attempted exactly when the
      address is set, and its result is applied as `getGifList` does. */
  function FetchEffect(s: AppState, reply: FetchReply): (t: Transition<FetchOutcome>)
    ensures t.outcome != NotAttempted <==> s.walletAddress.Some?
    ensures t.outcome == NotAttempted ==> t.next == s
    ensures t.outcome != NotAttempted ==>
              t.next == FetchResult(s, reply) && (t.outcome == ListLoaded <==> reply.Fetched?)
  {
    if JsTruthy(s.walletAddress) then
      Transition(FetchResult(s, reply), if reply.Fetched? then ListLoaded else ListReset)
    else
      Transition(s, NotAttempted)
  }

  /** The view choice: the connected view (input, submit button and grid) is
      rendered exactly when the address is set. */
  function ShowsConnectedView(s: AppState): (shown: bool)
    ensures shown <==> s.walletAddress.Some?
  {
    JsTruthy(s.walletAddress)
  }
}
