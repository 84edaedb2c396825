/**
  * The subscription object of the user agent: its fields, the outbound
  * subscribe and unsubscribe calls, the callbacks the request sender invokes
  * for each send, and the handling of inbound NOTIFY requests. Each method that
  * models a source function or callback is tied to one step of SubscriptionSpec.Next;
  * the helper methods it is built from each update a few fields of the state.
  */
module Subscriptions {
  import opened Wrappers
  import opened SubscriptionSpec

  /** A caller-owned list of extra header lines, which subscribe appends to in place. */
  class HeaderList {
    var lines: seq<string>

    constructor ()
      ensures lines == []
    {
      lines := [];
    }

    method Push(line: string)
      modifies this
      ensures lines == old(lines) + [line]
    {
      lines := lines + [line];
    }
  }

  /** The options of subscribe; `notify` is the optional event handler. */
  datatype Options = Options(extraHeaders: Option<HeaderList>, anonymous: bool, notify: Option<Listener>)

  /** The objects subscribe may change besides the subscription and its user agent. */
  function CallerHeaders(options: Options): set<HeaderList>
  {
    if options.extraHeaders.Some? then {options.extraHeaders.value} else {}
  }

  /**
    * Appends the Contact header line to the caller's header list, or to a new
    * empty one, and gives the resulting lines.
    */
  method AppendContactHeader(extraHeaders: Option<HeaderList>, contact: string) returns (lines: seq<string>)
    modifies if extraHeaders.Some? then {extraHeaders.value} else {}
    ensures lines == (if extraHeaders.Some? then old(extraHeaders.value.lines) else []) + [ContactHeader(contact)]
    ensures extraHeaders.Some? ==> extraHeaders.value.lines == lines
  {
    var list: HeaderList;
    if extraHeaders.Some? {
      list := extraHeaders.value;
    } else {
      list := new HeaderList();
    }
    list.Push(ContactHeader(contact));
    lines := list.lines;
  }

  /**
    * The owning user agent: its session registry, and its contact rendering
    * (with or without anonymity), which is opaque here.
    */
  class UA {
    var sessions: map<string, Subscription>
    const contactToString: bool -> string

    constructor (contactToString: bool -> string)
      ensures sessions == map[] && this.contactToString == contactToString
    {
      sessions := map[];
      this.contactToString := contactToString;
    }
  }

  class Subscription {
    const ua: UA
    var status: Status
    var subscribers: seq<Listener>
    var remoteTarget: string
    var localTag: string
    var anonymous: bool
    var contact: string
    var request: Option<OutgoingRequest>
    var callId: string
    var localSeqnum: int
    var id: string
    var localUri: Option<string>
    var remoteUri: Option<string>
    var remoteTag: Option<string>
    // The sends handed to the request sender whose one callback has not run yet.
    ghost var inFlight: multiset<SendKind>

    /** The dialog state these fields hold. */
    ghost function Snapshot(): DialogState
      reads this
    {
      DialogState(status, id, callId, localTag, localSeqnum, localUri, remoteUri, remoteTag,
                  remoteTarget, contact, anonymous, subscribers, inFlight)
    }

    constructor (ua: UA)
      ensures this.ua == ua && request == None
      ensures status == Null && subscribers == []
      ensures Snapshot() == Initial()
    {
      this.ua := ua;
      status := Null;
      subscribers := [];
      remoteTarget, localTag, anonymous, contact, request := "", "", false, "", None;
      callId, localSeqnum, id := "", 0, "";
      localUri, remoteUri, remoteTag := None, None, None;
      inFlight := multiset{};
    }

    /**
      * Sends the initial SUBSCRIBE. `newTag` is the freshly generated local tag;
      * `requestCallId` and `requestCseq` are the Call-ID and CSeq the request
      * builder chose. Returns the request handed to the request sender.
      */
    method Subscribe(uri: string, options: Options, newTag: string, requestCallId: string, requestCseq: int)
      returns (sent: OutgoingRequest)
      modifies this, ua, CallerHeaders(options)
      ensures ua.sessions == old(ua.sessions)[id := this]
      ensures options.extraHeaders.Some? ==>
        options.extraHeaders.value.lines == old(options.extraHeaders.value.lines) + [ContactHeader(contact)]
      ensures sent == OutgoingRequest(SUBSCRIBE, uri, requestCallId, requestCseq, None, newTag, None, None,
                                      (if options.extraHeaders.Some? then old(options.extraHeaders.value.lines) else [])
                                      + [ContactHeader(contact)])
      ensures request == Some(sent)
      ensures Snapshot() == Next(old(Snapshot()),
                                 SubscribeCall(uri, newTag, options.anonymous, ua.contactToString(options.anonymous),
                                               requestCallId, requestCseq, options.notify))
    {
      SetLocalParty(uri, newTag, options.anonymous, ua.contactToString(options.anonymous));
      var headerLines := AppendContactHeader(options.extraHeaders, contact);
      sent := OutgoingRequest(SUBSCRIBE, uri, requestCallId, requestCseq, None, localTag, None, None, headerLines);
      AdoptRequest(sent);
      if options.notify.Some? {
        subscribers := subscribers + [options.notify.value];
      }
      Register();
      HandOver(SubscribeSend, SubscribeSent);
    }

    /** The target, local tag, anonymity and contact subscribe fixes for the dialog. */
    method SetLocalParty(uri: string, newTag: string, anonymous: bool, contact: string)
      modifies this
      ensures Snapshot() == old(Snapshot()).(remoteTarget := uri, localTag := newTag, anonymous := anonymous, contact := contact)
      ensures request == old(request)
    {
      remoteTarget := uri;
      localTag := newTag;
      this.anonymous := anonymous;
      this.contact := contact;
    }

    /** The dialog takes its Call-ID and first CSeq from the request built for it. */
    method AdoptRequest(built: OutgoingRequest)
      modifies this
      ensures Snapshot() == old(Snapshot()).(callId := built.callId, localSeqnum := built.cseq)
      ensures request == Some(built)
    {
      request := Some(built);
      callId := built.callId;
      localSeqnum := built.cseq;
    }

    /** Registers this subscription in the user agent's sessions under Call-ID + local tag. */
    method Register()
      modifies this, ua
      ensures Snapshot() == old(Snapshot()).(id := callId + localTag)
      ensures request == old(request)
      ensures ua.sessions == old(ua.sessions)[id := this]
    {
      id := callId + localTag;
      ua.sessions := ua.sessions[id := this];
    }

    /** Moves to the status of a sent request and hands the send to the request sender. */
    method HandOver(kind: SendKind, sentStatus: Status)
      modifies this`status, this`inFlight
      ensures Snapshot() == old(Snapshot()).(status := sentStatus, inFlight := old(inFlight) + multiset{kind})
    {
      status := sentStatus;
      inFlight := inFlight + multiset{kind};
    }

    /** The SUBSCRIBE applicant's response callback: any response subscribes. */
    method OnSubscribeResponse(response: Response)
      requires SubscribeSend in inFlight
      modifies this`status, this`localUri, this`remoteUri, this`remoteTag, this`inFlight
      ensures Snapshot() == Next(old(Snapshot()), SenderCallback(SubscribeSend, Responded(response)))
    {
      RecordRemoteParty(response);
      Settle(SubscribeSend, Subscribed);
    }

    /** Takes the local and remote URIs from the From and To headers and the remote tag from To. */
    method RecordRemoteParty(response: Response)
      modifies this`localUri, this`remoteUri, this`remoteTag
      ensures Snapshot() == old(Snapshot()).(localUri := Some(response.fromUri), remoteUri := Some(response.toUri),
                                             remoteTag := response.toTag)
    {
      localUri := Some(response.fromUri);
      remoteUri := Some(response.toUri);
      remoteTag := response.toTag;
    }

    /** A request sender callback: the send of `kind` is over and the status becomes `to`. */
    method Settle(kind: SendKind, to: Status)
      modifies this`status, this`inFlight
      ensures Snapshot() == old(Snapshot()).(status := to, inFlight := old(inFlight) - multiset{kind})
    {
      status := to;
      inFlight := inFlight - multiset{kind};
    }

    /** The SUBSCRIBE applicant's timeout callback. */
    method OnSubscribeTimeout()
      requires SubscribeSend in inFlight
      modifies this`status, this`inFlight
      ensures Snapshot() == Next(old(Snapshot()), SenderCallback(SubscribeSend, TimedOut))
    {
      Settle(SubscribeSend, RequestTimeout);
    }

    /** The SUBSCRIBE applicant's transport-error callback. */
    method OnSubscribeTransportError()
      requires SubscribeSend in inFlight
      modifies this`status, this`inFlight
      ensures Snapshot() == Next(old(Snapshot()), SenderCallback(SubscribeSend, TransportFailed))
    {
      Settle(SubscribeSend, TransportError);
    }

    /**
      * Handles an inbound request: a NOTIFY while subscribed is answered 200 and
      * its body handed to every listener in order; anything else is answered 501.
      */
    method ReceiveRequest(incoming: IncomingRequest) returns (effects: seq<Effect>)
      ensures effects == Deliver(Snapshot(), incoming)
    {
      if incoming.sipMethod == NOTIFY {
        if status == Subscribed {
          effects := [Reply(200)];
          var i := 0;
          while i < |subscribers|
            invariant 0 <= i <= |subscribers|
            invariant effects == [Reply(200)] + Invocations(subscribers[..i], incoming.body)
          {
            assert subscribers[..i + 1][..i] == subscribers[..i];
            effects := effects + [Invoke(subscribers[i], incoming.body)];
            i := i + 1;
          }
          assert subscribers[..i] == subscribers;
        } else {
          effects := [Reply(501)];
        }
      } else {
        effects := [Reply(501)];
      }
    }

    /**
      * Sends the unsubscribe (a SUBSCRIBE with Expires: 0 inside the dialog), or
      * throws when not subscribed. Returns the request handed to the request sender.
      */
    method Unsubscribe() returns (r: Result<OutgoingRequest, string>)
      modifies this`localSeqnum, this`status, this`inFlight
      ensures old(status) != Subscribed ==> r == Err(NOT_SUBSCRIBED) && unchanged(this)
      ensures old(status) == Subscribed ==>
        r == Ok(OutgoingRequest(SUBSCRIBE, remoteTarget, callId, localSeqnum, localUri, localTag,
                                remoteUri, remoteTag, [ContactHeader(contact), EXPIRES_ZERO]))
      ensures Snapshot() == Next(old(Snapshot()), UnsubscribeCall)
    {
      if status != Subscribed {
        return Err(NOT_SUBSCRIBED);
      }
      var extraHeaders := [ContactHeader(contact), EXPIRES_ZERO];
      localSeqnum := localSeqnum + 1;
      var built := OutgoingRequest(SUBSCRIBE, remoteTarget, callId, localSeqnum, localUri, localTag,
                                   remoteUri, remoteTag, extraHeaders);
      HandOver(UnsubscribeSend, UnsubscribeSent);
      r := Ok(built);
    }

    /** The unsubscribe applicant's response callback. */
    method OnUnsubscribeResponse(response: Response)
      requires UnsubscribeSend in inFlight
      modifies this`status, this`inFlight
      ensures Snapshot() == Next(old(Snapshot()), SenderCallback(UnsubscribeSend, Responded(response)))
    {
      Settle(UnsubscribeSend, Unsubscribed);
    }

    /** The unsubscribe applicant's timeout callback. */
    method OnUnsubscribeTimeout()
      requires UnsubscribeSend in inFlight
      modifies this`status, this`inFlight
      ensures Snapshot() == Next(old(Snapshot()), SenderCallback(UnsubscribeSend, TimedOut))
    {
      Settle(UnsubscribeSend, RequestTimeout);
    }

    /** The unsubscribe applicant's transport-error callback. */
    method OnUnsubscribeTransportError()
      requires UnsubscribeSend in inFlight
      modifies this`status, this`inFlight
      ensures Snapshot() == Next(old(Snapshot()), SenderCallback(UnsubscribeSend, TransportFailed))
    {
      Settle(UnsubscribeSend, TransportError);
    }
  }

  /**
    * Subscribing to sip:alice@example.com with one listener, a response with
    * To tag "xyz", then a NOTIFY with body "open", driven through the contracts above.
    */
  method SubscribeAndNotify() returns (sub: Subscription)
  {
    var ua := new UA(anon => if anon then "<sip:anonymous@anonymous.invalid>" else "<sip:bob@example.com>");
    sub := new Subscription(ua);
    var headers := new HeaderList();
    var listener := Listener(1);
    var sent := sub.Subscribe("sip:alice@example.com", Options(Some(headers), false, Some(listener)),
                              "tag1", "call1", 1);
    assert sub.status == SubscribeSent && sub.subscribers == [listener];
    assert sub.id == "call1tag1" && ua.sessions["call1tag1"] == sub;
    assert sub.contact == "<sip:bob@example.com>";
    assert headers.lines == [ContactHeader("<sip:bob@example.com>")];

    sub.OnSubscribeResponse(Response(200, "sip:bob@example.com", "sip:alice@example.com", Some("xyz")));
    assert sub.status == Subscribed && sub.remoteTag == Some("xyz") && sub.subscribers == [listener];

    NotifyOneListener(sub, listener);
  }

  /** A NOTIFY to a subscribed dialog with one listener: a 200, then that listener gets the body. */
  method NotifyOneListener(sub: Subscription, listener: Listener)
    requires sub.status == Subscribed && sub.subscribers == [listener]
  {
    var effects := sub.ReceiveRequest(IncomingRequest(NOTIFY, "open"));
    assert effects == [Reply(200)] + Invocations([listener], "open");
    assert effects == [Reply(200), Invoke(listener, "open")];
  }

  /**
    * From a subscribed dialog: unsubscribe, a timeout, and then a NOTIFY is
    * refused and a second unsubscribe throws.
    */
  method UnsubscribeThenTimeout(sub: Subscription)
    requires sub.status == Subscribed && sub.inFlight == multiset{}
    modifies sub
  {
    var seqnum := sub.localSeqnum;
    var r := sub.Unsubscribe();
    assert r.Ok? && r.value.cseq == seqnum + 1;
    assert sub.localSeqnum == seqnum + 1 && sub.status == UnsubscribeSent;

    sub.OnUnsubscribeTimeout();
    assert sub.status == RequestTimeout;
    var effects := sub.ReceiveRequest(IncomingRequest(NOTIFY, "closed"));
    assert effects == [Reply(501)];
    r := sub.Unsubscribe();
    assert r == Err(NOT_SUBSCRIBED) && sub.localSeqnum == seqnum + 1;
  }
}
