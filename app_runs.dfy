/** Sequences of handler invocations on the App component's state, and what holds
    after any of them: the order of local appends, when a session counts as
    connected, when a fetch is attempted, and what a fetch does to local appends. */
module AppRuns {
  import opened AppModel

  /** One thing that happens to the component: the `load` listener's probe, a click
      on the connect button, an edit of the link box, a form submission, or the
      `walletAddress` effect running its fetch to completion. */
  datatype Event =
    | PageLoad(probeWallet: Wallet)
    | ConnectClick(clickWallet: Wallet)
    | InputEdited(text: string)
    | FormSubmit
    | AddressEffect(reply: FetchReply)

  /** The state after one event. */
  function Step(s: AppState, e: Event): (r: AppState)
    ensures r.walletAddress.Some? <==> s.walletAddress.Some? || GrantsKey(e)
  {
    match e
    case PageLoad(w) => Probe(s, w).next
    case ConnectClick(w) => Connect(s, w).next
    case InputEdited(text) => InputChange(s, text)
    case FormSubmit => Send(s).next
    case AddressEffect(reply) => FetchEffect(s, reply).next
  }

  /** The events that record a wallet address. */
  predicate GrantsKey(e: Event) {
    (e.PageLoad? && TrustedGrant(e.probeWallet)) || (e.ConnectClick? && Grant(e.clickWallet))
  }

  /** The state after a whole run of events. */
  function Run(s: AppState, events: seq<Event>): AppState
    decreases |events|
  {
    if events == [] then s else Run(Step(s, events[0]), events[1..])
  }

  /** How many fetches the `walletAddress` effect attempts during a run. */
  function FetchesAttempted(s: AppState, events: seq<Event>): nat
    decreases |events|
  {
    if events == [] then 0
    else
      var attempted := if events[0].AddressEffect? && FetchEffect(s, events[0].reply).outcome != NotAttempted
                       then 1 else 0;
      attempted + FetchesAttempted(Step(s, events[0]), events[1..])
  }

  /** Typing each link into the box and submitting it, one after another. */
  function Submissions(links: seq<string>): seq<Event>
    decreases |links|
  {
    if links == [] then [] else [InputEdited(links[0]), FormSubmit] + Submissions(links[1..])
  }

  /** The links that survive `sendGif`'s emptiness check, in order. */
  function NonEmpty(links: seq<string>): seq<string>
    decreases |links|
  {
    if links == [] then []
    else (if links[0] == "" then [] else [links[0]]) + NonEmpty(links[1..])
  }

  /** Running two runs back to back is running their concatenation. */
  lemma {:induction false} RunConcat(s: AppState, a: seq<Event>, b: seq<Event>)
    ensures Run(s, a + b) == Run(Run(s, a), b)
    decreases |a|
  {
    if a == [] {
      assert a + b == b;
    } else {
      assert (a + b)[0] == a[0];
      assert (a + b)[1..] == a[1..] + b;
      RunConcat(Step(s, a[0]), a[1..], b);
    }
  }

  /** Running two events is stepping twice. */
  lemma RunPair(s: AppState, e1: Event, e2: Event)
    ensures Run(s, [e1, e2]) == Step(Step(s, e1), e2)
  {
    var events := [e1, e2];
    assert events[1..] == [e2];
    assert events[1..][1..] == [];
    assert Run(s, events) == Run(Step(s, e1), [e2]);
    assert Run(Step(s, e1), [e2]) == Run(Step(Step(s, e1), e2), []);
  }

  /** Typing and submitting links while the list is loaded appends the non-empty
      ones at the end in the order given, leaves the address alone, and leaves the
      box empty once anything was typed. */
  lemma {:induction false} SubmissionsAppendInOrder(s: AppState, links: seq<string>)
    requires s.gifList.Some?
    ensures Run(s, Submissions(links)) ==
            AppState(s.walletAddress,
                     if links == [] then s.inputValue else "",
                     Some(s.gifList.value + NonEmpty(links)))
    decreases |links|
  {
    if links != [] {
      var first: seq<Event> := [InputEdited(links[0]), FormSubmit];
      RunConcat(s, first, Submissions(links[1..]));
      var s' := Run(s, first);
      RunPair(s, InputEdited(links[0]), FormSubmit);
      assert Submissions(links) == first + Submissions(links[1..]);
      var kept: seq<string> := if links[0] == "" then [] else [links[0]];
      var typed := InputChange(s, links[0]);
      assert s' == Send(typed).next;
      if links[0] == "" {
        assert s.gifList.value + kept == s.gifList.value;
      } else {
        assert Send(typed).outcome == Appended;
      }
      assert s' == AppState(s.walletAddress, "", Some(s.gifList.value + kept));
      SubmissionsAppendInOrder(s', links[1..]);
      assert NonEmpty(links) == kept + NonEmpty(links[1..]);
      assert s.gifList.value + kept + NonEmpty(links[1..]) == s.gifList.value + NonEmpty(links);
    } else {
      assert s.gifList.value + NonEmpty(links) == s.gifList.value;
    }
  }

  /** Appending a then b gives a list ending in a, b, never b, a. */
  lemma TwoSubmissionsKeepOrder(s: AppState, a: string, b: string)
    requires s.gifList.Some? && a != "" && b != ""
    ensures Run(s, Submissions([a, b])).gifList == Some(s.gifList.value + [a, b])
  {
    SubmissionsAppendInOrder(s, [a, b]);
    assert [a, b][1..] == [b];
    assert [b][1..] == [];
    assert NonEmpty([b]) == [b] + NonEmpty([]);
    assert NonEmpty([a, b]) == [a] + NonEmpty([b]);
    assert NonEmpty([a, b]) == [a, b];
  }

  /** After any run, an address is set exactly when one was set at the start or
      some event granted one; in particular a connected session never returns to
      the not-connected view. */
  lemma {:induction false} ConnectedIffGranted(s: AppState, events: seq<Event>)
    ensures Run(s, events).walletAddress.Some? <==>
            s.walletAddress.Some? || exists i :: 0 <= i < |events| && GrantsKey(events[i])
    decreases |events|
  {
    if events != [] {
      var rest := events[1..];
      ConnectedIffGranted(Step(s, events[0]), rest);
      if exists i :: 0 <= i < |rest| && GrantsKey(rest[i]) {
        var i :| 0 <= i < |rest| && GrantsKey(rest[i]);
        assert GrantsKey(events[i + 1]);
      }
      if exists i :: 0 <= i < |events| && GrantsKey(events[i]) {
        var i :| 0 <= i < |events| && GrantsKey(events[i]);
        if i > 0 {
          assert GrantsKey(rest[i - 1]);
        }
      }
    }
  }

  /** Starting from the not-connected state, a run in which no wallet grants a key
      attempts no fetch and ends in the not-connected view. This covers a page with
      no injected wallet, where neither the probe nor the button changes anything. */
  lemma {:induction false} NoGrantNoFetch(s: AppState, events: seq<Event>)
    requires s.walletAddress.None?
    requires forall i :: 0 <= i < |events| ==> !GrantsKey(events[i])
    ensures FetchesAttempted(s, events) == 0
    ensures !ShowsConnectedView(Run(s, events))
    decreases |events|
  {
    if events != [] {
      var rest := events[1..];
      assert !GrantsKey(events[0]);
      forall i | 0 <= i < |rest| ensures !GrantsKey(rest[i]) {
        assert rest[i] == events[i + 1];
      }
      NoGrantNoFetch(Step(s, events[0]), rest);
    }
  }

  /** A successful fetch while connected replaces the list wholesale with the
      fetched entries: links appended locally before it are gone. */
  lemma {:induction false} FetchDiscardsLocalAppends(s: AppState, links: seq<string>, entries: seq<string>)
    requires s.walletAddress.Some? && s.gifList.Some?
    ensures Run(s, Submissions(links) + [AddressEffect(Fetched(entries))]) ==
            AppState(s.walletAddress, if links == [] then s.inputValue else "", Some(entries))
  {
    RunConcat(s, Submissions(links), [AddressEffect(Fetched(entries))]);
    SubmissionsAppendInOrder(s, links);
  }

  /** After a failed fetch the list stays null under any submissions: every submit
      with a non-empty link throws before a setter runs, so the typed text stays in
      the box. */
  lemma {:induction false} NullListBlocksSubmissions(s: AppState, links: seq<string>)
    requires s.gifList.None?
    ensures Run(s, Submissions(links)).gifList.None?
    ensures Run(s, Submissions(links)).walletAddress == s.walletAddress
    ensures Run(s, Submissions(links)).inputValue == if links == [] then s.inputValue else links[|links| - 1]
    decreases |links|
  {
    if links != [] {
      var first: seq<Event> := [InputEdited(links[0]), FormSubmit];
      RunConcat(s, first, Submissions(links[1..]));
      var s' := Run(s, first);
      RunPair(s, InputEdited(links[0]), FormSubmit);
      assert Submissions(links) == first + Submissions(links[1..]);
      assert s' == s.(inputValue := links[0]);
      NullListBlocksSubmissions(s', links[1..]);
    }
  }

  /** The `load` listener is registered twice; a second probe answered the same
      way as the first leaves the state where the first one put it. */
  lemma RepeatedProbeIsIdempotent(s: AppState, w: Wallet)
    ensures Run(s, [PageLoad(w), PageLoad(w)]) == Probe(s, w).next
  {
    RunPair(s, PageLoad(w), PageLoad(w));
  }
}
