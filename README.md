# JsSIP client subscription dialog, modelled in Dafny

This project models `Subscription`, the JsSIP object a user agent uses to keep one
SIP event subscription. A subscription is a SUBSCRIBE request followed by the
dialog it opens. The model covers these parts:

- the seven status constants;
- the constructor;
- `subscribe` and the three callbacks its request sender can invoke;
- `receiveRequest`, which handles NOTIFY and everything else;
- `unsubscribe` (a SUBSCRIBE with `Expires: 0`) and its three callbacks.

The model has two layers.

- `SubscriptionSpec` is a pure state machine:
  - `DialogState` holds the dialog's fields.
  - `Event` covers a subscribe call, an unsubscribe call, a request-sender callback and an inbound request.
  - `Next` is one step and `Run` is a sequence of steps.
  - The lemmas say what holds along every run.
- `Subscriptions` is the object itself:
  - the class `Subscription` has the source's fields, one method for each source function or callback, and small helper methods that each update a few of its fields;
  - the user agent `UA` holds the `sessions` registry the subscription adds itself to;
  - `HeaderList` is the caller's extra-headers array, which `subscribe` appends to in place.

  Each method that models a source function or callback ensures `Snapshot() == Next(old(Snapshot()), e)` for its event `e`. So every lemma about `Next` and `Run` holds for the object as well. The helper methods (`SetLocalParty`, `AdoptRequest`, `Register`, `HandOver`, `RecordRemoteParty`, `Settle`) and `HeaderList.Push` are not steps of `Next`: each states which fields it changes and that the rest of the state is unchanged.

The request sender (`RequestSender`) is not part of this model. Its contract is
that it invokes exactly one of `receiveResponse`, `onRequestTimeout` or
`onTransportError` per send. The model represents this with a ghost multiset
`inFlight` of pending sends:

- `subscribe` and `unsubscribe` add one pending send each;
- each callback requires its send to be pending and consumes it.

`StepAllowed` and `Allowed` state when a run follows this contract. The run must
also call `subscribe` only on a fresh subscription. Under these conditions:

- the status follows the lifecycle table `Edge` (`StepFollowsTable`);
- a terminal status is final (`TerminalIsFinal`);
- the CSeq advances at most once after the initial SUBSCRIBE (`SeqnumAdvancesAtMostOnce`);
- the dialog identifiers never change (`DialogFieldsFixed`).

Without these conditions the code behaves differently:

- `subscribe` has no status guard, so it reopens even a terminal subscription (`ResubscribeLeavesTerminal`). The lifecycle table `Edge` treats these states as final, but the code does not enforce it. The model follows the code.
- The SUBSCRIBE response callback does not look at the status code, so a rejection also moves the subscription to SUBSCRIBED (`RejectionStillSubscribes`).

## Model

| member | source | states |
|---|---|---|
| `SubscriptionSpec.StatusOfCode` | lib/Subscription.js:3-12 | an integer names a status exactly when it is one of the constants 0..6 |
| `SubscriptionSpec.CodeRoundTrip` | lib/Subscription.js:3-12 | the seven constants are pairwise distinct: decoding a status's code gives that status, and a code that decodes to a status is that status's code |
| `Subscriptions.Subscription.constructor` | lib/Subscription.js:25-31 | a new subscription belongs to the given user agent, has status NULL, no listeners and no request, and its state is `Initial()` |
| `SubscriptionSpec.InitialInv` | lib/Subscription.js:25-31 | the initial state has status NULL, no listeners and no send pending |
| `Subscriptions.Subscription.Subscribe` | lib/Subscription.js:33-102 | it registers the subscription in `ua.sessions` under Call-ID + local tag and appends the Contact line to the caller's header list in place. It returns the SUBSCRIBE built from the target, the new tag, the builder's Call-ID and CSeq, and the headers, and stores it as `request`. The new state is the subscribe step: status SUBSCRIBE_SENT, new identifiers, the listener appended if one was given, one more send pending |
| `Subscriptions.Subscription.SetLocalParty` | lib/Subscription.js:36-53 | it records the target, the new local tag, the anonymity flag and the contact, and nothing else changes |
| `Subscriptions.AppendContactHeader` | lib/Subscription.js:43-55 | the header lines are the caller's list (or an empty one) followed by `Contact: <contact>`, and the caller's list now holds exactly those lines |
| `Subscriptions.HeaderList.Push` | lib/Subscription.js:55 | pushing a line appends it at the end of the list |
| `Subscriptions.Subscription.AdoptRequest` | lib/Subscription.js:57-61 | the dialog keeps the built request and takes its Call-ID and CSeq from it, and nothing else changes |
| `Subscriptions.Subscription.Register` | lib/Subscription.js:68-70 | the id becomes Call-ID + local tag and the session map maps that id to this subscription, other entries unchanged |
| `Subscriptions.Subscription.HandOver` | lib/Subscription.js:95-99 | the status becomes the sent status and the send is now pending, and nothing else changes |
| `Subscriptions.Subscription.OnSubscribeResponse` | lib/Subscription.js:78-84 | a response to the SUBSCRIBE makes the subscription SUBSCRIBED and records the From URI, To URI and To tag (absent when the response has none); the send is no longer pending |
| `Subscriptions.Subscription.RecordRemoteParty` | lib/Subscription.js:81-83 | local URI := From URI, remote URI := To URI, remote tag := To tag, and nothing else changes |
| `Subscriptions.Subscription.Settle` | lib/Subscription.js:85-92 | a callback sets the status it stands for and removes its send from the pending ones, and nothing else changes |
| `Subscriptions.Subscription.OnSubscribeTimeout` | lib/Subscription.js:85-88 | a SUBSCRIBE timeout gives status REQUEST_TIMEOUT and changes nothing else |
| `Subscriptions.Subscription.OnSubscribeTransportError` | lib/Subscription.js:89-92 | a SUBSCRIBE transport error gives status TRANSPORT_ERROR and changes nothing else |
| `SubscriptionSpec.Invocations` | lib/Subscription.js:113-115 | the listeners are called once each, in list order, all with the same body |
| `SubscriptionSpec.Deliver` | lib/Subscription.js:104-124 | the first effect is the reply, 200 exactly for a NOTIFY while SUBSCRIBED and 501 otherwise. A listener is called with the body if and only if the request is a NOTIFY, the status is SUBSCRIBED and the listener is registered. A 501 is the only effect; after a 200 come exactly one call per listener, in list order |
| `Subscriptions.Subscription.ReceiveRequest` | lib/Subscription.js:104-124 | the loop produces exactly `Deliver` of the current state: the reply, then one call per listener in order |
| `Subscriptions.Subscription.Unsubscribe` | lib/Subscription.js:126-181 | if the status is not SUBSCRIBED it throws the "You need to be subscribed" error and changes nothing. Otherwise the CSeq goes up by one and it returns the in-dialog SUBSCRIBE with that CSeq, the Call-ID, the URIs and tags, and the headers `Contact` and `Expires: 0`. The status becomes UNSUBSCRIBE_SENT with the send pending |
| `Subscriptions.Subscription.OnUnsubscribeResponse` | lib/Subscription.js:160-163 | a response to the unsubscribe gives status UNSUBSCRIBED and changes nothing else |
| `Subscriptions.Subscription.OnUnsubscribeTimeout` | lib/Subscription.js:164-167 | an unsubscribe timeout gives status REQUEST_TIMEOUT and changes nothing else |
| `Subscriptions.Subscription.OnUnsubscribeTransportError` | lib/Subscription.js:168-171 | an unsubscribe transport error gives status TRANSPORT_ERROR and changes nothing else |
| `SubscriptionSpec.Next` | lib/Subscription.js:33-181 | one step of the dialog: a subscribe call, an unsubscribe call, a request-sender callback or an inbound request. The inbound request changes nothing. No step removes or reorders a listener, and a step adds at most one (the `push` at lines 64-66) |
| `SubscriptionSpec.Code` | lib/Subscription.js:3-12 | the constant of each status, one of 0..6 |
| `SubscriptionSpec.AfterSubscribe` | lib/Subscription.js:33-102 | subscribe gives status SUBSCRIBE_SENT, id Call-ID + new tag and the builder's CSeq, with one more SUBSCRIBE send pending. The listener list gains the notify handler exactly when one is given. The URIs and remote tag learned earlier are not reset |
| `SubscriptionSpec.AfterUnsubscribe` | lib/Subscription.js:126-181 | unsubscribe leaves the state unchanged if and only if the status is not SUBSCRIBED. Otherwise it gives UNSUBSCRIBE_SENT, CSeq + 1 and one more unsubscribe send pending, and changes nothing else |
| `SubscriptionSpec.AfterCallback` | lib/Subscription.js:78-92 | a callback consumes its pending send. It sets the status its outcome stands for: REQUEST_TIMEOUT, TRANSPORT_ERROR, SUBSCRIBED after a SUBSCRIBE response, and UNSUBSCRIBED after an unsubscribe response (lines 160-171). It never changes the identifiers, the CSeq or the listeners. Only a response to the SUBSCRIBE sets the From URI, the To URI and the To tag (which may be absent) |
| `Subscriptions.UA.constructor` | lib/Subscription.js:50-70 | the user agent that owns the subscription: its session registry starts empty and its contact rendering is the given function of the anonymity flag |
| `SubscriptionSpec.StepFollowsTable` | lib/Subscription.js:78-99 | under two conditions, every step keeps the pending-send invariant and either keeps the status or takes an edge of the lifecycle table. The sender calls back only for a pending send. The caller subscribes only while the status is NULL; resubscribing from SUBSCRIBE_SENT would leave two SUBSCRIBE sends pending |
| `SubscriptionSpec.RunKeepsInv` | lib/Subscription.js:95-99 | along an allowed run exactly one send is pending in SUBSCRIBE_SENT and UNSUBSCRIBE_SENT and none elsewhere |
| `SubscriptionSpec.TerminalIsFinal` | lib/Subscription.js:126-129 | from UNSUBSCRIBED, REQUEST_TIMEOUT or TRANSPORT_ERROR, an allowed run changes nothing |
| `SubscriptionSpec.SeqnumStep` | lib/Subscription.js:142 | after the first SUBSCRIBE, a step moves the CSeq only when unsubscribing from SUBSCRIBED, and then by one |
| `SubscriptionSpec.SeqnumAdvancesAtMostOnce` | lib/Subscription.js:142 | after the first SUBSCRIBE, an allowed run leaves the CSeq unchanged or one higher, and one higher only if the run started in SUBSCRIBE_SENT or SUBSCRIBED |
| `SubscriptionSpec.FieldsStep` | lib/Subscription.js:60-83 | after the first SUBSCRIBE, a step keeps the id, Call-ID, local tag, target and contact. Once past SUBSCRIBE_SENT it also keeps the URIs and remote tag |
| `SubscriptionSpec.DialogFieldsFixed` | lib/Subscription.js:60-83 | the same holds along a whole allowed run |
| `SubscriptionSpec.ListenersOnlyGrow` | lib/Subscription.js:64-66 | along any run the listener list only gains entries at its end |
| `SubscriptionSpec.ListenerHearsNotify` | lib/Subscription.js:110-115 | a listener registered at any point gets the body of every NOTIFY that arrives while a later state is SUBSCRIBED |
| `SubscriptionSpec.ResubscribeLeavesTerminal` | lib/Subscription.js:33-37 | subscribe has no guard: from a terminal status it moves to SUBSCRIBE_SENT, which is not an edge of the table |
| `SubscriptionSpec.RejectionStillSubscribes` | lib/Subscription.js:78-84 | a 404 response to the SUBSCRIBE still gives status SUBSCRIBED |

## Left out

- Debug logging (`debug(...)`) has no effect on state and is not modelled.
- `RequestSender` is not part of this model: authentication challenges, retransmission and timers are left out. Its contract is assumed to be exactly one callback per send. This is the ghost `inFlight` multiset and the `Allowed` runs. Runs that break the contract are still covered by `ListenersOnlyGrow` and `ListenerHearsNotify`. `ResubscribeLeavesTerminal`, `RejectionStillSubscribes` and the contracts of `Next`, `AfterSubscribe`, `AfterUnsubscribe`, `AfterCallback` and `Deliver` hold for every state.
- `SIPMessage.OutgoingRequest` is not part of this model. The request is the record of the parameters it is built from. The Call-ID and first CSeq the builder picks are parameters of `Subscribe`.
- `Utils.newTag` is randomness, so the new local tag is a parameter of `Subscribe`.
- `ua.contact.toString` is a function of the anonymity flag (`UA.contactToString`). Its output format is not modelled.
- Subscriptions.Subscription.Subscribe: returns the request handed to the request sender instead of the subscription object itself. Callers in the model already hold the object.
- Subscriptions.Subscription.Unsubscribe: returns the request handed to the request sender, or the thrown error as `Err`, instead of the subscription object itself. Callers in the model already hold the object.
- Subscriptions.Subscription.ReceiveRequest: returns the reply and listener calls as a list of effects instead of performing them. The listener's `this` binding and what a listener does, including re-entrant calls, are left out.
- A `null` or `undefined` options object is not modelled. The source reads `options.anonymous` without a null check, so such a call throws, and `Options` is always present here. JavaScript truthiness of `anonymous`, `extraHeaders` and `eventHandlers.notify` is modelled as a boolean and optional values.
- Fields the constructor leaves `undefined` hold placeholders (empty strings, 0, `None`) in `Initial()`.
- The response's parsed From and To headers are reduced to their URIs, and the To tag to an optional value (it is absent when the response carries none). Header parsing is not modelled.
