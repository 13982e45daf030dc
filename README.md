# GIF portal client: wallet session and list state

This project models the `App` component of a browser client for a Solana GIF portal.
The client connects a browser-injected wallet (Phantom), reads a list of GIF links from
an on-chain base account through an Anchor client, and lets the user append links locally.
The logic with real state is the `App` component's three `useState` fields:

- `walletAddress`: null, or the text of a public key;
- `inputValue`: the text in the link box;
- `gifList`: the list of links, or null after a failed fetch.

The handlers move these fields from one value to the next. Each one reads the result of
an external call, such as the wallet's `connect` or the account fetch. The model has three
modules:

- `AppModel` (`app_model.dfy`) holds the state as a value and the results of the external
  calls as datatypes. It has one pure transition per handler. Each transition's contract
  says what changes, under which condition, and what stays as it was.
- `AppRuns` (`app_runs.dfy`) models runs of handler calls. Its lemmas state what holds
  after any run:
  - local appends keep their order;
  - a session is connected exactly when some wallet reply granted a key;
  - with no grant, no fetch is attempted;
  - a successful fetch discards local appends;
  - with a null list, the list stays null under any submissions: a non-empty link throws
    at the spread and an empty one is ignored.
- `AppComponent` (`app_component.dfy`) holds the class `App`. Its three fields are updated
  in place, with one method per handler. Each method's frame names only the fields that
  handler sets. Its postcondition ties the new fields to the `AppModel` transition.

External calls appear only as their settled results:

- `window.solana` is `Wallet`: either `Absent`, or `Present` with its `isPhantom` flag and
  a `ConnectReply`.
- The account fetch is `FetchReply`: either `Fetched(entries)` or `FetchFailed`.

A public key's text is modelled as a non-empty string, because base58 output is never
empty. So JavaScript truthiness of `walletAddress`, which the fetch effect and the view
test, is the same as "not null". `JsTruthy` states this.

Behaviours of App.js the model keeps as written:

- The session is nothing more than `walletAddress`: null, or set to a key's text.
- `connectWallet` does nothing when no wallet is injected. It shows no alert; only the
  startup probe alerts.
- `connectWallet` does not check `isPhantom`.
- `connectWallet` does not catch a rejected connect. Its promise rejects with the state
  unchanged. This is `ConnectRejected`.
- There is no guard against stale fetches. A fetch result is applied whenever it arrives.
- `sendGif` with a non-empty box on a null list throws a TypeError from the spread before any setter runs. So
  nothing changes, and the typed text stays in the box. This is `SpreadOfNull`.
- App.js:107-134 nest one `useEffect` inside another and leave the braces unbalanced. The
  model takes the intended code: one effect, keyed on `walletAddress`, that fetches
  exactly when `walletAddress` is truthy.

## Model

| member | source | states |
|---|---|---|
| AppModel.JsTruthy | App.js:127-128 | the `if (walletAddress)` test holds exactly when the address is not null, since a key's text is never empty |
| AppModel.Probe | App.js:61-90 | the probe sets the address (to the resolved key) only for a Phantom wallet whose trusted connect resolved; otherwise nothing changes, including on a rejection or a non-Phantom wallet; the alert happens exactly when no wallet is injected, the silent skip exactly for a non-Phantom wallet, and the logged rejection exactly when a Phantom wallet rejects; the list and input never change |
| AppModel.Connect | App.js:142-152 | the button sets the address to the resolved key for any injected wallet, whatever its `isPhantom`; with no wallet or a rejection nothing changes; the uncaught rejection is reported exactly when an injected wallet rejects |
| AppModel.InputChange | App.js:154-157 | the link box's text replaces the buffer; address and list are untouched |
| AppModel.Extend | App.js:170 | `[...gifList, inputValue]` is one longer, keeps every earlier entry in its place, and ends with the new link |
| AppModel.Send | App.js:167-175 | an empty buffer is ignored with no change; a non-empty buffer with a null list throws with no change; otherwise the buffer is appended at the end and cleared; the address never changes |
| AppModel.FetchResult | App.js:112-125 | the list is set exactly when the fetch succeeded, and then to exactly the fetched entries; any failure sets it to null; address and input are untouched |
| AppModel.FetchEffect | App.js:107-134 | a fetch is attempted exactly when the address is set; when not attempted nothing changes; when attempted the fetch's result is applied |
| AppModel.ShowsConnectedView | App.js:224-232 | the connected view is rendered exactly when the address is set |
| AppRuns.Step | App.js:55-175 | after any one handler the address is set exactly when it was set before or that handler's wallet reply granted a key |
| AppRuns.SubmissionsAppendInOrder | App.js:167-175 | typing and submitting links on a loaded list appends the non-empty ones at the end in the given order, keeps the address, and leaves the box empty once something was typed |
| AppRuns.TwoSubmissionsKeepOrder | App.js:168-170 | submitting a then b leaves the list ending in a, b |
| AppRuns.ConnectedIffGranted | App.js:61-152 | after any run, the address is set exactly when it was set at the start or some probe or click was granted a key; a connected session never goes back to not connected |
| AppRuns.NoGrantNoFetch | App.js:127-133 | from the not-connected state, a run with no granted key (for example, with no wallet injected) attempts no fetch and never shows the connected view |
| AppRuns.FetchDiscardsLocalAppends | App.js:116-119 | a successful fetch after local appends leaves exactly the fetched entries: the local appends are lost |
| AppRuns.NullListBlocksSubmissions | App.js:121-123 | after a failed fetch the list stays null under any submissions; the address is kept and the last typed link stays in the box. This describes `sendGif` on its own: in the running app no submission can follow a failed fetch, because rendering the null list throws (App.js:202) |
| AppRuns.RepeatedProbeIsIdempotent | App.js:212-216 | the second `load` listener's probe, answered like the first, changes nothing more |
| AppComponent.App.constructor | App.js:55-57 | the fields start as null, the empty string and the empty list |
| AppComponent.App.CheckIfWalletIsConnected | App.js:61-90 | changes only `walletAddress`, as `Probe` says, and returns the probe's report |
| AppComponent.App.ConnectWallet | App.js:142-152 | changes only `walletAddress`, as `Connect` says, and returns whether it connected, found no wallet, or rejected |
| AppComponent.App.GetGifList | App.js:112-125 | changes only `gifList`, as `FetchResult` says |
| AppComponent.App.WalletAddressEffect | App.js:107-134 | changes only `gifList`, and only when `walletAddress` is set, as `FetchEffect` says |
| AppComponent.App.OnInputChange | App.js:154-157 | changes only `inputValue`, to the new text |
| AppComponent.App.SendGif | App.js:167-175 | changes only `gifList` and `inputValue`, as `Send` says, and returns whether it appended, ignored an empty box, or threw on a null list |
| AppComponent.App.ConnectedViewShown | App.js:224-232 | reports the connected view exactly when `walletAddress` is set |

## Left out

- Rendering is left out: JSX, CSS class names, the Twitter logo and link, and the unused
  `TEST_GIFS` array are presentation only. One consequence is not modelled. After a failed
  fetch, rendering `gifList.map` on null would throw in the connected view.
- The Solana and Anchor calls are left out as foreign code. These are `Keypair.generate`,
  `PublicKey`, `clusterApiUrl`, `Connection`, `Provider`, `Program`, `getProvider` and the
  account `fetch`. Only their outcome is modelled, as `FetchReply`.
- `window.solana` and its `connect` are the browser-injected wallet. They are modelled only
  through `Wallet` and `ConnectReply`.
- Async scheduling is not modelled. This covers the two `load` listeners, the unused
  `onLoad`, and the interleaving of a pending fetch with other handlers. In `AppRuns` a
  fetch is one event that applies its result at once. `AddressEffect` events may appear
  anywhere in a run, which allows more runs than React's effect scheduling does. The
  lemmas hold for all of them.
- `AppRuns` does not tie events to the view that offers them. Every event may occur in
  every state, so the runs include some the page cannot produce. `InputEdited` and
  `FormSubmit` may occur while disconnected, although the form is rendered only in the
  connected view (App.js:186-199, 232). `ConnectClick` may occur while connected and
  replace the key, although the button is rendered only while `walletAddress` is null
  (App.js:181, 231). Any event may follow a failed fetch, although rendering `gifList.map`
  on null (App.js:202) throws and unmounts the component. Every lemma quantifies over
  all runs, so it also holds for the runs the page can produce.
- `console.log`, `console.error` and `alert` have no effect on state. The alert appears only
  as the `AlertedNoWallet` report.
