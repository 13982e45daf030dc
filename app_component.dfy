/** The App component as an object: its three `useState` fields, updated in place
    by one method per handler. Each method is specified by the transition of the
    same name in AppModel, whose properties AppModel and AppRuns state. */
module AppComponent {
  import opened AppModel

  class App {
    var walletAddress: Option<PublicKeyText>
    var inputValue: string
    var gifList: Option<seq<string>>

    /** The current field values as one state value. */
    function State(): AppState
      reads this
    {
      AppState(walletAddress, inputValue, gifList)
    }

    /** Mounting: the initial values given to `useState`. */
    constructor ()
      ensures State() == Initial
    {
      walletAddress := None;
      inputValue := "";
      gifList := Some([]);
    }

    /** `checkIfWalletIsConnected`, run by the `load` listener. */
    method CheckIfWalletIsConnected(w: Wallet) returns (report: ProbeReport)
      modifies this`walletAddress
      ensures Transition(State(), report) == Probe(old(State()), w)
    {
      match w {
        case Absent =>
          report := AlertedNoWallet;
        case Present(isPhantom, reply) =>
          if isPhantom {
            match reply {
              case Resolved(key) =>
                walletAddress := Some(key);
                report := ProbeConnected(key);
              case Rejected =>
                report := ProbeRejectionLogged;
            }
          } else {
            report := NotPhantom;
          }
      }
    }

    /** `connectWallet`, run by the connect button. */
    method ConnectWallet(w: Wallet) returns (outcome: ConnectOutcome)
      modifies this`walletAddress
      ensures Transition(State(), outcome) == Connect(old(State()), w)
    {
      outcome := NoWallet;
      if w.Present? {
        match w.reply {
          case Resolved(key) =>
            walletAddress := Some(key);
            outcome := WalletConnected(key);
          case Rejected =>
            outcome := ConnectRejected;
        }
      }
    }

    /** `getGifList`, from the moment the account fetch settles. */
    method GetGifList(reply: FetchReply)
      modifies this`gifList
      ensures State() == FetchResult(old(State()), reply)
    {
      match reply {
        case Fetched(entries) =>
          gifList := Some(entries);
        case FetchFailed =>
          gifList := None;
      }
    }

    /** The effect keyed on `walletAddress`: fetch only while an address is set. */
    method WalletAddressEffect(reply: FetchReply) returns (outcome: FetchOutcome)
      modifies this`gifList
      ensures Transition(State(), outcome) == FetchEffect(old(State()), reply)
    {
      outcome := NotAttempted;
      if JsTruthy(walletAddress) {
        GetGifList(reply);
        outcome := if reply.Fetched? then ListLoaded else ListReset;
      }
    }

    /** `onInputChange`. */
    method OnInputChange(text: string)
      modifies this`inputValue
      ensures State() == InputChange(old(State()), text)
    {
      inputValue := text;
    }

    /** `sendGif`. */
    method SendGif() returns (outcome: SendOutcome)
      modifies this`gifList, this`inputValue
      ensures Transition(State(), outcome) == Send(old(State()))
    {
      if |inputValue| > 0 {
        if gifList.None? {
          outcome := SpreadOfNull;
        } else {
          gifList := Some(Extend(gifList.value, inputValue));
          inputValue := "";
          outcome := Appended;
        }
      } else {
        outcome := EmptyIgnored;
      }
    }

    /** Which container the render shows. */
    method ConnectedViewShown() returns (shown: bool)
      ensures shown <==> walletAddress.Some?
    {
      shown := ShowsConnectedView(State());
    }
  }
}
