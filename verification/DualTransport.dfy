/**
 * The bridge's two carriers: a WebSocket that speeds delivery up and plain HTTP behind it.
 * Calls, socket events, timers and late replies interleave freely; what reaches the wire is logged.
 */
module DualTransport {
  import opened Options

  /** `Plain` stands for calls that only ever use HTTP. */
  datatype Kind = StartOperation | Next(claimRecovery: bool) | Evidence | Plain

  datatype Phase =
    | Connecting
    | Sent                // on the socket, its reply pending
    | Broken(sent: bool)  // rejected as unavailable, not yet handled by its caller
    | OverHttp
    | Over                // answered or refused

  datatype Request = Request(kind: Kind, phase: Phase)

  datatype Carrier = Socket | Http

  datatype Transmission = Transmission(id: nat, carrier: Carrier)

  datatype State = State(
    closed: bool,
    denied: bool,
    socket: Option<nat>,
    dialled: nat,
    ready: bool,
    pending: set<nat>,
    requests: seq<Request>,
    wire: seq<Transmission>)

  /** How waiting for the socket ends, and what is then found when sending. */
  datatype Attempt = Unconnected | Unauthorized | Connected(oversize: bool, room: bool, throws: bool)

  datatype Event =
    | Call(kind: Kind)
    | Resume(id: nat, attempt: Attempt)
    | Handle(id: nat)
    | Open
    | Welcome(socket: nat, valid: bool)
    | Lost(socket: nat, denied: bool)
    | Reply(socket: nat, id: nat)
    | Timeout(id: nat)
    | Close

  const MAX_PENDING: nat := 8

  const INITIAL: State := State(false, false, None, 0, false, {}, [], [])

  /** Requests that may be sent again after a reply was lost. */
  predicate Retryable(kind: Kind) {
    kind.Evidence? || (kind.Next? && kind.claimRecovery)
  }

  function Put(s: State, id: nat, phase: Phase): State
    requires id < |s.requests|
  {
    s.(requests := s.requests[id := s.requests[id].(phase := phase)])
  }

  function Transmit(s: State, id: nat, carrier: Carrier): State {
    s.(wire := s.wire + [Transmission(id, carrier)])
  }

  function BreakAll(s: State): State
  {
    s.(pending := {},
       requests := seq(|s.requests|, i requires 0 <= i < |s.requests| =>
         if i in s.pending then s.requests[i].(phase := Broken(true)) else s.requests[i]))
  }

  /** The current socket is gone: everything pending on it is rejected as sent. */
  function Fail(s: State, socket: nat): State {
    if s.socket != Some(socket) then s else BreakAll(s).(ready := false, socket := None)
  }

  function OnCall(s: State, kind: Kind): State {
    var id := |s.requests|;
    if s.closed then s.(requests := s.requests + [Request(kind, Over)])
    else if kind.Plain? then Transmit(s.(requests := s.requests + [Request(kind, OverHttp)]), id, Http)
    else s.(requests := s.requests + [Request(kind, Connecting)])
  }

  function OnResume(s: State, id: nat, attempt: Attempt): State {
    if id >= |s.requests| || !s.requests[id].phase.Connecting? then s
    else if attempt.Unauthorized? || s.denied then Put(s, id, Over)
    else if attempt.Unconnected? || s.closed || s.socket.None? || !s.ready then Put(s, id, Broken(false))
    else if attempt.oversize then Put(s, id, Over)
    else if |s.pending| >= MAX_PENDING || !attempt.room then Put(s, id, Broken(false))
    else if attempt.throws then Put(s, id, Broken(true))
    else Transmit(Put(s, id, Sent).(pending := s.pending + {id}), id, Socket)
  }

  function OnHandle(s: State, id: nat): State {
    if id >= |s.requests| || !s.requests[id].phase.Broken? then s
    else if s.closed || (s.requests[id].phase.sent && !Retryable(s.requests[id].kind)) then Put(s, id, Over)
    else Transmit(Put(s, id, OverHttp), id, Http)
  }

  function OnReply(s: State, socket: nat, id: nat): State {
    if s.socket != Some(socket) then s
    else if !s.ready then Fail(s, socket)
    else if id !in s.pending || id >= |s.requests| then s
    else Put(s, id, Over).(pending := s.pending - {id})
  }

  function OnTimeout(s: State, id: nat): State {
    if id !in s.pending || id >= |s.requests| then s
    else Put(s, id, Broken(true)).(pending := s.pending - {id})
  }

  function After(s: State, event: Event): State {
    match event
    case Call(kind) => OnCall(s, kind)
    case Resume(id, attempt) => OnResume(s, id, attempt)
    case Handle(id) => OnHandle(s, id)
    case Open => if s.closed || s.denied then s else s.(socket := Some(s.dialled), dialled := s.dialled + 1)
    case Welcome(socket, valid) =>
      if s.socket != Some(socket) then s
      else if s.ready || !valid then Fail(s, socket)
      else s.(ready := true)
    case Lost(socket, denied) => Fail(if denied then s.(denied := true) else s, socket)
    case Reply(socket, id) => OnReply(s, socket, id)
    case Timeout(id) => OnTimeout(s, id)
    case Close => s.(closed := true)
  }

  function Run(events: seq<Event>): State {
    if events == [] then INITIAL else After(Run(events[..|events| - 1]), events[|events| - 1])
  }

  function Times(wire: seq<Transmission>, id: nat, carrier: Carrier): nat {
    if wire == [] then 0
    else Times(wire[..|wire| - 1], id, carrier) + if wire[|wire| - 1] == Transmission(id, carrier) then 1 else 0
  }

  // ----- What every event keeps

  /** How often a request was on each carrier, by where it stands now. */
  ghost predicate Accounted(request: Request, socket: nat, http: nat) {
    match request.phase
    case Connecting => socket == 0 && http == 0 && !request.kind.Plain?
    case Sent => socket == 1 && http == 0 && !request.kind.Plain?
    case Broken(sent) => (if sent then socket <= 1 else socket == 0) && http == 0 && !request.kind.Plain?
    case OverHttp => http == 1 && (if Retryable(request.kind) then socket <= 1 else socket == 0)
    case Over => socket <= 1 && http == 0
  }

  ghost predicate Row(request: Request, wire: seq<Transmission>, id: nat) {
    Accounted(request, Times(wire, id, Socket), Times(wire, id, Http))
  }

  ghost predicate Ledger(requests: seq<Request>, wire: seq<Transmission>) {
    && (forall id: nat :: id < |requests| ==> Row(requests[id], wire, id))
    && (forall id: nat, carrier :: id >= |requests| ==> Times(wire, id, carrier) == 0)
  }

  ghost predicate Tracked(pending: set<nat>, requests: seq<Request>) {
    forall id: nat :: id in pending <==> id < |requests| && requests[id].phase.Sent?
  }

  ghost predicate Sound(s: State) {
    |s.pending| <= MAX_PENDING && Tracked(s.pending, s.requests) && Ledger(s.requests, s.wire)
  }

  lemma TimesAppend(wire: seq<Transmission>, t: Transmission, id: nat, carrier: Carrier)
    ensures Times(wire + [t], id, carrier) == Times(wire, id, carrier) + if t == Transmission(id, carrier) then 1 else 0
  {
    assert (wire + [t])[..|wire|] == wire;
  }

  /** A transmission shows in the row of its own request only. */
  lemma Transmitted(requests: seq<Request>, wire: seq<Transmission>, t: Transmission, request: Request)
    requires Ledger(requests, wire) && t.id < |requests| && Row(request, wire + [t], t.id)
    ensures Ledger(requests[t.id := request], wire + [t])
  {
    var post := requests[t.id := request];
    forall id: nat | id < |post|
      ensures Row(post[id], wire + [t], id)
    {
      TimesAppend(wire, t, id, Socket);
      TimesAppend(wire, t, id, Http);
      assert Row(requests[id], wire, id);
    }
    forall id: nat, carrier | id >= |post|
      ensures Times(wire + [t], id, carrier) == 0
    {
      TimesAppend(wire, t, id, carrier);
    }
  }

  lemma Updated(requests: seq<Request>, wire: seq<Transmission>, id: nat, phase: Phase)
    requires Ledger(requests, wire) && id < |requests| && Row(requests[id].(phase := phase), wire, id)
    ensures Ledger(requests[id := requests[id].(phase := phase)], wire)
  {
  }

  lemma Added(requests: seq<Request>, wire: seq<Transmission>, request: Request)
    requires Ledger(requests, wire) && Accounted(request, 0, 0)
    ensures Ledger(requests + [request], wire)
  {
    var id := |requests|;
    assert Times(wire, id, Socket) == 0 && Times(wire, id, Http) == 0;
    assert Row(request, wire, id);
  }

  lemma AddedOverHttp(requests: seq<Request>, wire: seq<Transmission>, kind: Kind)
    requires Ledger(requests, wire)
    ensures Ledger(requests + [Request(kind, OverHttp)], wire + [Transmission(|requests|, Http)])
  {
    var id := |requests|;
    var blank := requests + [Request(kind, Over)];
    assert Times(wire, id, Socket) == 0 && Times(wire, id, Http) == 0;
    Added(requests, wire, Request(kind, Over));
    TimesAppend(wire, Transmission(id, Http), id, Http);
    TimesAppend(wire, Transmission(id, Http), id, Socket);
    Transmitted(blank, wire, Transmission(id, Http), Request(kind, OverHttp));
    assert blank[id := Request(kind, OverHttp)] == requests + [Request(kind, OverHttp)];
  }

  lemma CallKeeps(s: State, kind: Kind)
    requires Sound(s)
    ensures Sound(OnCall(s, kind))
  {
    var next := OnCall(s, kind);
    assert Tracked(next.pending, next.requests);
    if next.wire != s.wire {
      AddedOverHttp(s.requests, s.wire, kind);
    } else {
      Added(s.requests, s.wire, next.requests[|s.requests|]);
    }
  }

  lemma Pends(pending: set<nat>, requests: seq<Request>, id: nat, phase: Phase)
    requires Tracked(pending, requests) && id < |requests| && id !in pending
    ensures var post := requests[id := requests[id].(phase := phase)];
            if phase.Sent? then Tracked(pending + {id}, post) else Tracked(pending, post)
  {
  }

  lemma SendKeeps(s: State, id: nat)
    requires Sound(s) && id < |s.requests| && s.requests[id].phase.Connecting? && |s.pending| < MAX_PENDING
    ensures Sound(Transmit(Put(s, id, Sent).(pending := s.pending + {id}), id, Socket))
  {
    Pends(s.pending, s.requests, id, Sent);
    assert Row(s.requests[id], s.wire, id);
    TimesAppend(s.wire, Transmission(id, Socket), id, Socket);
    TimesAppend(s.wire, Transmission(id, Socket), id, Http);
    Transmitted(s.requests, s.wire, Transmission(id, Socket), s.requests[id].(phase := Sent));
  }

  lemma PutKeeps(s: State, id: nat, phase: Phase)
    requires Sound(s) && id < |s.requests| && s.requests[id].phase.Connecting? && (phase.Over? || phase.Broken?)
    ensures Sound(Put(s, id, phase))
  {
    Pends(s.pending, s.requests, id, phase);
    assert Row(s.requests[id], s.wire, id);
    Updated(s.requests, s.wire, id, phase);
  }

  lemma ResumeIs(s: State, id: nat, attempt: Attempt)
    requires id < |s.requests| && s.requests[id].phase.Connecting?
    ensures var next := OnResume(s, id, attempt);
            || next == Put(s, id, Over) || next == Put(s, id, Broken(false)) || next == Put(s, id, Broken(true))
            || (|s.pending| < MAX_PENDING
                && next == Transmit(Put(s, id, Sent).(pending := s.pending + {id}), id, Socket))
  {
  }

  lemma ResumeKeeps(s: State, id: nat, attempt: Attempt)
    requires Sound(s)
    ensures Sound(OnResume(s, id, attempt))
  {
    if id < |s.requests| && s.requests[id].phase.Connecting? {
      ResumeIs(s, id, attempt);
      PutKeeps(s, id, Over);
      PutKeeps(s, id, Broken(false));
      PutKeeps(s, id, Broken(true));
      if |s.pending| < MAX_PENDING {
        SendKeeps(s, id);
      }
    }
  }

  lemma HandleKeeps(s: State, id: nat)
    requires Sound(s)
    ensures Sound(OnHandle(s, id))
  {
    if id < |s.requests| && s.requests[id].phase.Broken? {
      var next := OnHandle(s, id);
      Pends(s.pending, s.requests, id, next.requests[id].phase);
      assert Row(s.requests[id], s.wire, id);
      if next.requests[id].phase.OverHttp? {
        TimesAppend(s.wire, Transmission(id, Http), id, Socket);
        TimesAppend(s.wire, Transmission(id, Http), id, Http);
        Transmitted(s.requests, s.wire, Transmission(id, Http), next.requests[id]);
      } else {
        Updated(s.requests, s.wire, id, Over);
      }
    }
  }

  lemma FailKeeps(s: State, socket: nat)
    requires Sound(s)
    ensures Sound(Fail(s, socket)) && Fail(s, socket).wire == s.wire
  {
    var post := BreakAll(s);
    forall id: nat | id < |s.requests|
      ensures Row(post.requests[id], s.wire, id)
    {
      assert Row(s.requests[id], s.wire, id);
    }
  }

  /** A pending request leaves the table for a phase that promises no more of the wire. */
  lemma SettleKeeps(s: State, id: nat, phase: Phase)
    requires Sound(s) && id in s.pending && phase in {Over, Broken(true)}
    ensures id < |s.requests| && Sound(Put(s, id, phase).(pending := s.pending - {id}))
  {
    assert Row(s.requests[id], s.wire, id);
    Updated(s.requests, s.wire, id, phase);
  }

  lemma AfterKeeps(s: State, event: Event)
    requires Sound(s)
    ensures Sound(After(s, event))
  {
    match event
    case Call(kind) => CallKeeps(s, kind);
    case Resume(id, attempt) => ResumeKeeps(s, id, attempt);
    case Handle(id) => HandleKeeps(s, id);
    case Open =>
    case Welcome(socket, valid) => FailKeeps(s, socket);
    case Lost(socket, denied) => FailKeeps(if denied then s.(denied := true) else s, socket);
    case Reply(socket, id) =>
      FailKeeps(s, socket);
      if id in s.pending { SettleKeeps(s, id, Over); }
    case Timeout(id) =>
      if id in s.pending { SettleKeeps(s, id, Broken(true)); }
    case Close =>
  }

  lemma {:induction false} SoundAlways(events: seq<Event>)
    ensures Sound(Run(events))
  {
    if events != [] {
      SoundAlways(events[..|events| - 1]);
      AfterKeeps(Run(events[..|events| - 1]), events[|events| - 1]);
    }
  }

  /**
   * No request is on one carrier twice; a start, or a next that does not recover a claim, is on the wire at most
   * once over both carriers, whatever happens to it; and at most 8 pend.
   */
  lemma NeverReplayed(events: seq<Event>, id: nat)
    ensures var s := Run(events);
            && |s.pending| <= MAX_PENDING
            && Times(s.wire, id, Socket) <= 1 && Times(s.wire, id, Http) <= 1
            && (id < |s.requests|
                && (var kind := s.requests[id].kind; kind.StartOperation? || kind == Next(false) || kind.Plain?) ==>
                  Times(s.wire, id, Socket) + Times(s.wire, id, Http) <= 1)
  {
    SoundAlways(events);
    assert id < |Run(events).requests| ==> Row(Run(events).requests[id], Run(events).wire, id);
  }

  /** No reply sends anything; a late one changes nothing, and an awaited one ends its own request and no other. */
  lemma LateReplyIgnored(events: seq<Event>, socket: nat, id: nat)
    ensures var s, post := Run(events), Run(events + [Reply(socket, id)]);
            var awaited := id < |s.requests| && s.requests[id].phase.Sent?;
            && post.wire == s.wire
            && (s.socket != Some(socket) || (s.ready && !awaited) ==> post == s)
            && (s.socket == Some(socket) && s.ready && awaited ==>
                  post == Put(s, id, Over).(pending := s.pending - {id}))
  {
    SoundAlways(events);
    assert (events + [Reply(socket, id)])[..|events|] == events;
  }

  /** Nothing is closed, refused for its size or its credentials, or thrown back by the socket library. */
  predicate Smooth(event: Event) {
    match event
    case Close => false
    case Lost(_, denied) => !denied
    case Resume(_, Unauthorized) => false
    case Resume(_, Connected(oversize, _, throws)) => !oversize && !throws
    case _ => true
  }

  predicate ViaSocket(phase: Phase) { phase.Sent? || phase == Broken(true) || phase.Over? }

  ghost predicate Reached(s: State) {
    && !s.closed && !s.denied
    && forall id: nat :: id < |s.requests| && ViaSocket(s.requests[id].phase) ==> Times(s.wire, id, Socket) >= 1
  }

  lemma StepReaches(s: State, event: Event, id: nat)
    requires Tracked(s.pending, s.requests) && !s.closed && !s.denied && Smooth(event)
    ensures var post := After(s, event);
            && !post.closed && !post.denied
            && (id < |post.requests| && ViaSocket(post.requests[id].phase) ==>
                  (id < |s.requests| && ViaSocket(s.requests[id].phase))
                    || post.wire == s.wire + [Transmission(id, Socket)])
  {
  }

  lemma WireGrows(s: State, event: Event, id: nat, carrier: Carrier)
    ensures Times(s.wire, id, carrier) <= Times(After(s, event).wire, id, carrier)
  {
    var post := After(s, event);
    if post.wire != s.wire {
      assert post.wire == s.wire + [post.wire[|s.wire|]];
      TimesAppend(s.wire, post.wire[|s.wire|], id, carrier);
    }
  }

  lemma ReachedKeeps(s: State, event: Event)
    requires Sound(s) && Reached(s) && Smooth(event)
    ensures Reached(After(s, event))
  {
    var post := After(s, event);
    StepReaches(s, event, 0);
    forall id: nat | id < |post.requests| && ViaSocket(post.requests[id].phase)
      ensures Times(post.wire, id, Socket) >= 1
    {
      StepReaches(s, event, id);
      WireGrows(s, event, id, Socket);
      TimesAppend(s.wire, Transmission(id, Socket), id, Socket);
    }
  }

  lemma {:induction false} ReachedAlways(events: seq<Event>)
    requires forall event <- events :: Smooth(event)
    ensures Reached(Run(events))
  {
    if events != [] {
      var init, last := events[..|events| - 1], events[|events| - 1];
      assert last in events && forall event <- init :: event in events;
      ReachedAlways(init);
      SoundAlways(init);
      ReachedKeeps(Run(init), last);
    }
  }

  /** However the socket fails, a request that ended did reach the wire: once, or twice if it may be repeated. */
  lemma SentExactlyOnce(events: seq<Event>, id: nat)
    requires forall event <- events :: Smooth(event)
    requires id < |Run(events).requests| && Run(events).requests[id].phase in {Over, OverHttp}
    ensures var s := Run(events);
            var sent := Times(s.wire, id, Socket) + Times(s.wire, id, Http);
            1 <= sent <= 2 && (!s.requests[id].kind.Evidence? && s.requests[id].kind != Next(true) ==> sent == 1)
  {
    NeverReplayed(events, id);
    SoundAlways(events);
    ReachedAlways(events);
    assert Row(Run(events).requests[id], Run(events).wire, id);
  }

  /**
   * A request whose reply was lost goes to HTTP exactly if it is evidence or a next that recovers a claim, one that was
   * never sent always does, and after close none does; a request not sent again is over.
   */
  lemma RepeatedOverHttp(events: seq<Event>, id: nat)
    requires id < |Run(events).requests| && Run(events).requests[id].phase.Broken?
    ensures var s, post := Run(events), Run(events + [Handle(id)]);
            var again := !s.closed && (!s.requests[id].phase.sent || s.requests[id].kind in {Evidence, Next(true)});
            && post.wire == (if again then s.wire + [Transmission(id, Http)] else s.wire)
            && post.requests == s.requests[id := Request(s.requests[id].kind, if again then OverHttp else Over)]
  {
    assert (events + [Handle(id)])[..|events|] == events;
  }

  /** The link is up: a socket is there and the server has greeted it. */
  predicate Up(s: State) {
    !s.closed && !s.denied && s.socket.Some? && s.ready
  }

  /** What a step puts on the wire. */
  function SentBy(s: State, event: Event): Option<Transmission> {
    match event
    case Call(kind) => if kind.Plain? && !s.closed then Some(Transmission(|s.requests|, Http)) else None
    case Resume(id, attempt) =>
      if && id < |s.requests| && s.requests[id].phase.Connecting? && |s.pending| < MAX_PENDING && Up(s)
         && attempt == Connected(false, true, false)
      then Some(Transmission(id, Socket)) else None
    case Handle(id) =>
      if && id < |s.requests| && s.requests[id].phase.Broken? && !s.closed
         && (!s.requests[id].phase.sent || s.requests[id].kind in {Evidence, Next(true)})
      then Some(Transmission(id, Http)) else None
    case _ => None
  }

  lemma WireStep(s: State, event: Event)
    ensures var sent := SentBy(s, event);
            After(s, event).wire == if sent.Some? then s.wire + [sent.value] else s.wire
  {
    match event
    case Resume(id, attempt) =>
    case Handle(id) =>
    case _ =>
  }

  /** A waiting request goes to the socket exactly if the link is up and takes it, and nothing else puts it there. */
  lemma SentWhenUp(events: seq<Event>, event: Event, id: nat)
    ensures var s, post := Run(events), Run(events + [event]);
            Times(post.wire, id, Socket) > Times(s.wire, id, Socket) <==>
            && id < |s.requests| && s.requests[id].phase.Connecting? && |s.pending| < MAX_PENDING && Up(s)
            && event == Resume(id, Connected(false, true, false))
  {
    assert (events + [event])[..|events|] == events;
    var s := Run(events);
    var sent := SentBy(s, event);
    WireStep(s, event);
    if sent.Some? {
      TimesAppend(s.wire, sent.value, id, Socket);
    }
  }

  /** What ends the socket in use: its own loss, a greeting that is not the first or not valid, a reply before it. */
  predicate Ends(s: State, event: Event) {
    match event
    case Lost(socket, _) => s.socket == Some(socket)
    case Welcome(socket, valid) => s.socket == Some(socket) && (s.ready || !valid)
    case Reply(socket, _) => s.socket == Some(socket) && !s.ready
    case _ => false
  }

  /** When the socket in use ends, everything pending on it, and nothing else, is broken as sent. */
  lemma LinkEnds(events: seq<Event>, event: Event)
    requires Ends(Run(events), event)
    ensures var s, post := Run(events), Run(events + [event]);
            && post.socket.None? && !post.ready && post.pending == {} && post.wire == s.wire
            && |post.requests| == |s.requests|
            && forall id: nat :: id < |s.requests| ==>
                 post.requests[id] == if s.requests[id].phase.Sent? then Request(s.requests[id].kind, Broken(true))
                                      else s.requests[id]
  {
    assert (events + [event])[..|events|] == events;
    SoundAlways(events);
  }

  /** Otherwise the link changes by dialling and by the first valid greeting only. */
  lemma LinkStep(events: seq<Event>, event: Event)
    ensures var s, post := Run(events), Run(events + [event]);
            var dials := event.Open? && !s.closed && !s.denied;
            && post.dialled == s.dialled + (if dials then 1 else 0)
            && (!Ends(s, event) ==>
                  && (post.ready <==> s.ready || (event.Welcome? && event.valid && s.socket == Some(event.socket)))
                  && post.socket == if dials then Some(s.dialled) else s.socket)
  {
    assert (events + [event])[..|events|] == events;
  }

  lemma {:induction false} ClosedExactly(events: seq<Event>)
    ensures Run(events).closed <==> Close in events
  {
    if events != [] {
      var init, last := events[..|events| - 1], events[|events| - 1];
      assert events == init + [last];
      ClosedExactly(init);
      FlagStep(Run(init), last);
    }
  }

  lemma FlagStep(s: State, event: Event)
    ensures After(s, event).closed <==> s.closed || event.Close?
    ensures After(s, event).denied <==> s.denied || (event.Lost? && event.denied)
  {
  }

  lemma {:induction false} DeniedExactly(events: seq<Event>)
    ensures Run(events).denied <==> exists event <- events :: event.Lost? && event.denied
  {
    if events != [] {
      var init, last := events[..|events| - 1], events[|events| - 1];
      assert events == init + [last];
      DeniedExactly(init);
      FlagStep(Run(init), last);
    }
  }

  /** What a new call does: refused after close, over HTTP if it only ever uses that, and waiting for the socket else.
      */
  lemma CallStarts(events: seq<Event>, kind: Kind)
    ensures var s, post := Run(events), Run(events + [Call(kind)]);
            var phase := if Close in events then Over else if kind.Plain? then OverHttp else Connecting;
            && post.requests == s.requests + [Request(kind, phase)]
            && post.wire == if phase.OverHttp? then s.wire + [Transmission(|s.requests|, Http)] else s.wire
  {
    assert (events + [Call(kind)])[..|events|] == events;
    ClosedExactly(events);
  }

  lemma ClosedStep(s: State, event: Event)
    requires s.closed
    ensures After(s, event).closed && After(s, event).wire == s.wire
  {
  }

  lemma {:induction false} SilentOn(before: seq<Event>, later: seq<Event>)
    requires Run(before).closed
    ensures Run(before + later).closed && Run(before + later).wire == Run(before).wire
  {
    if later == [] {
      assert before + later == before;
    } else {
      var init, last := later[..|later| - 1], later[|later| - 1];
      SilentOn(before, init);
      ClosedStep(Run(before + init), last);
      assert (before + later)[..|before + later| - 1] == before + init;
    }
  }

  /** After a close nothing more is sent, in whatever phase a request was caught. */
  lemma ClosedIsSilent(before: seq<Event>, later: seq<Event>)
    requires Close in before
    ensures Run(before + later).wire == Run(before).wire
  {
    ClosedExactly(before);
    SilentOn(before, later);
  }

  /** After the server refused the credentials no request goes to a socket again. */
  lemma {:induction false} DeniedStaysOff(before: seq<Event>, later: seq<Event>, socket: nat, id: nat)
    requires Lost(socket, true) in before
    ensures Times(Run(before + later).wire, id, Socket) == Times(Run(before).wire, id, Socket)
  {
    if later == [] {
      assert before + later == before;
    } else {
      var init, last := later[..|later| - 1], later[|later| - 1];
      DeniedStaysOff(before, init, socket, id);
      assert before + later == before + init + [last];
      DeniedExactly(before + init);
      assert Lost(socket, true) in before + init;
      SentWhenUp(before + init, last, id);
      assert (before + init + [last])[..|before + init|] == before + init;
      WireGrows(Run(before + init), last, id, Socket);
    }
  }

  // ----- The transport as an object

  class Transport {
    var closed: bool
    var denied: bool
    var socket: Option<nat>
    var dialled: nat
    var ready: bool
    var pending: set<nat>
    var requests: seq<Request>
    ghost var wire: seq<Transmission>

    ghost function View(): State
      reads this
    {
      State(closed, denied, socket, dialled, ready, pending, requests, wire)
    }

    constructor ()
      ensures View() == INITIAL && Sound(View())
    {
      closed, denied, socket, dialled, ready, pending, requests, wire := false, false, None, 0, false, {}, [], [];
    }

    method SetPhase(id: nat, phase: Phase)
      requires id < |requests|
      modifies this`requests
      ensures View() == Put(old(View()), id, phase)
    {
      requests := requests[id := requests[id].(phase := phase)];
    }

    /** Sends one request on the socket once waiting for the connection ended. */
    method Rpc(id: nat, attempt: Attempt)
      requires Sound(View()) && id < |requests| && requests[id].phase.Connecting?
      modifies this
      ensures View() == After(old(View()), Resume(id, attempt)) && Sound(View())
    {
      AfterKeeps(View(), Resume(id, attempt));
      if attempt.Unauthorized? || denied {
        SetPhase(id, Over);
        return;
      }
      if attempt.Unconnected? || closed || socket.None? || !ready {
        SetPhase(id, Broken(false));
        return;
      }
      if attempt.oversize {
        SetPhase(id, Over);
        return;
      }
      if |pending| >= MAX_PENDING || !attempt.room {
        SetPhase(id, Broken(false));
        return;
      }
      if attempt.throws {
        SetPhase(id, Broken(true));
        return;
      }
      SetPhase(id, Sent);
      pending := pending + {id};
      wire := wire + [Transmission(id, Socket)];
    }

    /** What a caller does with a request found unavailable. */
    method HandleUnavailable(id: nat)
      requires Sound(View()) && id < |requests| && requests[id].phase.Broken?
      modifies this
      ensures View() == After(old(View()), Handle(id)) && Sound(View())
    {
      AfterKeeps(View(), Handle(id));
      if closed || (requests[id].phase.sent && !Retryable(requests[id].kind)) {
        SetPhase(id, Over);
        return;
      }
      SetPhase(id, OverHttp);
      wire := wire + [Transmission(id, Http)];
    }

    /** Rejects everything pending, one request at a time. */
    method RejectAll()
      requires forall id <- pending :: id < |requests|
      modifies this`pending, this`requests
      ensures View() == BreakAll(old(View()))
    {
      while pending != {}
        invariant pending <= old(pending) && |requests| == |old(requests)|
        invariant forall i: nat :: i < |requests| ==>
                    requests[i] == if i in old(pending) && i !in pending then old(requests)[i].(phase := Broken(true))
                                   else old(requests)[i]
        decreases |pending|
      {
        var id :| id in pending;
        pending := pending - {id};
        SetPhase(id, Broken(true));
      }
      assert requests == BreakAll(old(View())).requests;
    }

    method Failed(gone: nat)
      requires Sound(View())
      modifies this
      ensures View() == After(old(View()), Lost(gone, false)) && Sound(View())
    {
      AfterKeeps(View(), Lost(gone, false));
      if socket == Some(gone) {
        RejectAll();
        ready, socket := false, None;
      }
    }
  }
}
