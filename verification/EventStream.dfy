/**
 The inspector's resumable event stream: the server's numbered replay buffer, and one browser
 that loses its connection at any time and resumes after the last number it saw.
 */
module EventStream {
  import opened Common

  type ClientId = nat
  type RunId = string
  type Scope = string

  const REPLAY_BUFFER_LIMIT: nat := 128

  datatype Kind = Overview | RunView | ErrorEvent | Heartbeat

  datatype Envelope = Envelope(kind: Kind, sequence: nat, payload: string, replayed: bool)

  datatype Selection = Selection(runId: Option<RunId>, scope: Option<Scope>)

  datatype Entry = Entry(clientId: ClientId, envelope: Envelope, selection: Selection)

  // ---------------------------------------------------------------- the server's buffer

  function LastEntries(all: seq<Entry>, limit: nat): seq<Entry> {
    if |all| <= limit then all else all[|all| - limit..]
  }

  predicate Replays(e: Entry, clientId: ClientId, selection: Selection, lastSequence: nat) {
    && e.envelope.sequence > lastSequence
    && e.clientId == clientId
    && (e.envelope.kind == Overview || (e.envelope.kind == RunView && e.selection == selection))
  }

  /** The envelopes `replayWsHistory` sends for a resumed connection. */
  function Replayed(history: seq<Entry>, clientId: ClientId, selection: Selection, lastSequence: nat): seq<Envelope> {
    if history == [] then []
    else
      var last := history[|history| - 1];
      Replayed(history[..|history| - 1], clientId, selection, lastSequence)
      + if Replays(last, clientId, selection, lastSequence) then [last.envelope.(replayed := true)] else []
  }

  class EventServer {
    var wsSequence: nat
    var wsHistory: seq<Entry>
    ghost var recorded: seq<Entry>

    ghost predicate Valid()
      reads this
    {
      ServerOk(wsSequence, recorded) && wsHistory == LastEntries(recorded, REPLAY_BUFFER_LIMIT)
    }

    constructor ()
      ensures Valid() && recorded == [] && wsSequence == 0
    {
      wsSequence, wsHistory, recorded := 0, [], [];
    }

    /** Numbers an event and keeps it for replay unless it is an error or a heartbeat. */
    method SendWsEvent(clientId: ClientId, selection: Selection, kind: Kind, payload: string, recordHistory: bool)
        returns (envelope: Envelope)
      requires Valid()
      modifies this
      ensures Valid()
      ensures wsSequence == old(wsSequence) + 1
      ensures envelope == Envelope(kind, wsSequence, payload, false)
      ensures recorded == old(recorded) + if recordHistory then [Entry(clientId, envelope, selection)] else []
      ensures wsHistory == if |recorded| <= 128 then recorded else recorded[|recorded| - 128..]
    {
      wsSequence := wsSequence + 1;
      envelope := Envelope(kind, wsSequence, payload, false);
      if recordHistory {
        wsHistory := wsHistory + [Entry(clientId, envelope, selection)];
        recorded := recorded + [Entry(clientId, envelope, selection)];
        if |wsHistory| > REPLAY_BUFFER_LIMIT {
          wsHistory := wsHistory[|wsHistory| - REPLAY_BUFFER_LIMIT..];
        }
      }
    }

    method ReplayWsHistory(clientId: ClientId, selection: Selection, lastSequence: Option<nat>)
        returns (sent: seq<Envelope>, replayedCount: nat)
      requires Valid()
      ensures sent == if lastSequence.None? then []
                      else Replayed(LastEntries(recorded, REPLAY_BUFFER_LIMIT), clientId, selection, lastSequence.value)
      ensures lastSequence.Some? ==>
                forall x :: x in sent <==>
                  exists i :: |recorded| - 128 <= i < |recorded| && 0 <= i
                         && recorded[i].clientId == clientId && recorded[i].envelope.sequence > lastSequence.value
                         && (recorded[i].envelope.kind == Overview
                             || (recorded[i].envelope.kind == RunView && recorded[i].selection.runId == selection.runId
                                 && recorded[i].selection.scope == selection.scope))
                         && x == recorded[i].envelope.(replayed := true)
      ensures lastSequence.None? ==> sent == []
      ensures forall i, j :: 0 <= i < j < |sent| ==> sent[i].sequence < sent[j].sequence
      ensures replayedCount == |sent|
    {
      sent, replayedCount := [], 0;
      if lastSequence.None? {
        return;
      }
      ReplayMeaning(wsSequence, recorded, clientId, selection, lastSequence.value);
      for i := 0 to |wsHistory|
        invariant sent == Replayed(wsHistory[..i], clientId, selection, lastSequence.value)
        invariant replayedCount == |sent|
      {
        var entry := wsHistory[i];
        assert wsHistory[..i + 1][..i] == wsHistory[..i];
        if entry.envelope.sequence <= lastSequence.value {
          continue;
        }
        if entry.clientId != clientId {
          continue;
        }
        if entry.envelope.kind == RunView {
          if entry.selection != selection {
            continue;
          }
        } else if entry.envelope.kind != Overview {
          continue;
        }
        sent := sent + [entry.envelope.(replayed := true)];
        replayedCount := replayedCount + 1;
      }
      assert wsHistory[..|wsHistory|] == wsHistory;
    }
  }

  // ---------------------------------------------------------------- ordering

  /** The numbers increase from each envelope to the next and lie above one bound and up to another. */
  predicate Ordered(es: seq<Envelope>, above: nat, upTo: nat) {
    && (forall i :: 0 <= i < |es| ==> above < es[i].sequence <= upTo)
    && (forall i, j :: 0 <= i < j < |es| ==> es[i].sequence < es[j].sequence)
  }

  predicate ServerOk(sequence: nat, recorded: seq<Entry>) {
    && (forall i :: 0 <= i < |recorded| ==> 0 < recorded[i].envelope.sequence <= sequence)
    && (forall i, j :: 0 <= i < j < |recorded| ==> recorded[i].envelope.sequence < recorded[j].envelope.sequence)
  }

  lemma {:induction false} ReplayedFrom(history: seq<Entry>, clientId: ClientId, selection: Selection,
                                        lastSequence: nat, x: Envelope)
    ensures x in Replayed(history, clientId, selection, lastSequence)
            <==> exists i :: 0 <= i < |history| && Replays(history[i], clientId, selection, lastSequence)
                             && x == history[i].envelope.(replayed := true)
    decreases |history|
  {
    if history != [] {
      ReplayedFrom(history[..|history| - 1], clientId, selection, lastSequence, x);
      assert forall i :: 0 <= i < |history| - 1 ==> history[..|history| - 1][i] == history[i];
    }
  }

  lemma {:induction false} ReplayedInOrder(sequence: nat, history: seq<Entry>, clientId: ClientId,
                                           selection: Selection, lastSequence: nat)
    requires ServerOk(sequence, history)
    ensures Ordered(Replayed(history, clientId, selection, lastSequence), lastSequence, sequence)
    decreases |history|
  {
    if history != [] {
      ReplayedInOrder(history[|history| - 1].envelope.sequence - 1, history[..|history| - 1], clientId, selection,
                      lastSequence);
    }
  }

  /**
   What is sent again: in order, exactly the events among the last 128 that were recorded for this client, above
   the number it names, and are overviews or views of the run and scope it looks at.
   */
  lemma ReplayMeaning(sequence: nat, recorded: seq<Entry>, clientId: ClientId, selection: Selection, lastSequence: nat)
    requires ServerOk(sequence, recorded)
    ensures var sent := Replayed(LastEntries(recorded, REPLAY_BUFFER_LIMIT), clientId, selection, lastSequence);
            && Ordered(sent, lastSequence, sequence)
            && forall x :: x in sent <==>
                 exists i :: |recorded| - 128 <= i < |recorded| && 0 <= i
                        && recorded[i].clientId == clientId && recorded[i].envelope.sequence > lastSequence
                        && (recorded[i].envelope.kind == Overview
                            || (recorded[i].envelope.kind == RunView && recorded[i].selection.runId == selection.runId
                                && recorded[i].selection.scope == selection.scope))
                        && x == recorded[i].envelope.(replayed := true)
  {
    LastEntriesOrdered(sequence, recorded);
    ReplayedInOrder(sequence, LastEntries(recorded, REPLAY_BUFFER_LIMIT), clientId, selection, lastSequence);
    forall x ensures x in Replayed(LastEntries(recorded, REPLAY_BUFFER_LIMIT), clientId, selection, lastSequence)
        <==> exists i :: |recorded| - REPLAY_BUFFER_LIMIT <= i < |recorded| && 0 <= i
               && Replays(recorded[i], clientId, selection, lastSequence)
               && x == recorded[i].envelope.(replayed := true)
    {
      MissingOne(recorded, clientId, selection, lastSequence, x);
    }
    hide Replayed;
    hide ServerOk;
    hide Ordered;
  }

  function EntriesOf(history: seq<Entry>, clientId: ClientId): seq<Entry> {
    if history == [] then []
    else
      EntriesOf(history[..|history| - 1], clientId)
      + if history[|history| - 1].clientId == clientId then [history[|history| - 1]] else []
  }

  /** What other clients were sent makes no difference. */
  lemma {:induction false} ClientsAreIsolated(history: seq<Entry>, clientId: ClientId, selection: Selection,
                                              lastSequence: nat)
    ensures Replayed(history, clientId, selection, lastSequence)
            == Replayed(EntriesOf(history, clientId), clientId, selection, lastSequence)
    decreases |history|
  {
    if history != [] {
      var init, own := history[..|history| - 1], EntriesOf(history, clientId);
      ClientsAreIsolated(init, clientId, selection, lastSequence);
      if history[|history| - 1].clientId == clientId {
        assert own[..|own| - 1] == EntriesOf(init, clientId) && own[|own| - 1] == history[|history| - 1];
      } else {
        assert own == EntriesOf(init, clientId);
      }
    }
  }

  lemma LastEntriesOrdered(sequence: nat, recorded: seq<Entry>)
    requires ServerOk(sequence, recorded)
    ensures ServerOk(sequence, LastEntries(recorded, REPLAY_BUFFER_LIMIT))
  {
  }

  // ---------------------------------------------------------------- one browser over any run

  /** The server, the frames under way to the browser's current socket, and the browser. */
  datatype Link = Link(
    sequence: nat,
    recorded: seq<Entry>,
    clientId: ClientId,
    selection: Selection,
    connected: bool,
    channel: seq<Envelope>,
    lastSequence: nat,
    applied: seq<Envelope>)

  datatype Event =
    | Publish(kind: Kind, payload: string, recordHistory: bool)              // to the browser's current socket
    | PublishElsewhere(entry: Entry, recordHistory: bool)                    // to any other socket
    | Deliver                                                                // the browser reads one frame
    | Disconnect
    | Reconnect(selection: Selection)

  /** The number filter in the browser's message handler. */
  function Receive(s: Link, message: Envelope): Link {
    if message.sequence <= s.lastSequence then s
    else s.(lastSequence := message.sequence, applied := s.applied + [message])
  }

  function Resumed(s: Link, selection: Selection): seq<Envelope> {
    // the browser names a last number only once it has one
    if s.lastSequence > 0 then
      Replayed(LastEntries(s.recorded, REPLAY_BUFFER_LIMIT), s.clientId, selection, s.lastSequence)
    else []
  }

  function Step(s: Link, e: Event): Link {
    match e
    case Publish(kind, payload, recordHistory) =>
      if !s.connected then s
      else
        var envelope := Envelope(kind, s.sequence + 1, payload, false);
        s.(sequence := s.sequence + 1,
           recorded := s.recorded + if recordHistory then [Entry(s.clientId, envelope, s.selection)] else [],
           channel := s.channel + [envelope])
    case PublishElsewhere(entry, recordHistory) =>
      s.(sequence := s.sequence + 1,
         recorded := s.recorded
                     + if recordHistory then [entry.(envelope := entry.envelope.(sequence := s.sequence + 1))] else [])
    case Deliver => if s.channel == [] then s else Receive(s, s.channel[0]).(channel := s.channel[1..])
    case Disconnect => s.(connected := false, channel := [])
    case Reconnect(selection) => s.(connected := true, selection := selection, channel := Resumed(s, selection))
  }

  function Exec(s: Link, run: seq<Event>): Link
    decreases |run|
  {
    if run == [] then s else Exec(Step(s, run[0]), run[1..])
  }

  function Opened(clientId: ClientId, selection: Selection): Link {
    Link(0, [], clientId, selection, true, [], 0, [])
  }

  ghost predicate Inv(s: Link) {
    && ServerOk(s.sequence, s.recorded)
    && Ordered(s.channel, s.lastSequence, s.sequence)
    && Ordered(s.applied, 0, s.lastSequence)
    && s.lastSequence <= s.sequence
  }

  lemma RecordedOneMore(sequence: nat, recorded: seq<Entry>, e: Entry)
    requires ServerOk(sequence, recorded) && e.envelope.sequence == sequence + 1
    ensures ServerOk(sequence + 1, recorded) && ServerOk(sequence + 1, recorded + [e])
  {
  }

  lemma OrderedOneMore(es: seq<Envelope>, above: nat, upTo: nat, e: Envelope)
    requires Ordered(es, above, upTo) && above <= upTo < e.sequence
    ensures Ordered(es, above, e.sequence) && Ordered(es + [e], above, e.sequence)
  {
  }

  lemma OrderedTail(es: seq<Envelope>, above: nat, upTo: nat)
    requires Ordered(es, above, upTo) && es != []
    ensures above < es[0].sequence <= upTo && Ordered(es[1..], es[0].sequence, upTo)
  {
  }

  lemma ResumedInOrder(s: Link, selection: Selection)
    requires ServerOk(s.sequence, s.recorded)
    ensures Ordered(Resumed(s, selection), s.lastSequence, s.sequence)
  {
    LastEntriesOrdered(s.sequence, s.recorded);
    ReplayedInOrder(s.sequence, LastEntries(s.recorded, REPLAY_BUFFER_LIMIT), s.clientId, selection, s.lastSequence);
  }

  lemma OrderedNone(above: nat, upTo: nat)
    ensures Ordered([], above, upTo)
  {
  }

  lemma StepKeeps(s: Link, e: Event)
    requires Inv(s)
    ensures Inv(Step(s, e))
  {
    hide ServerOk;
    hide Ordered;
    hide Resumed;
    match e
    case Publish(kind, payload, _) =>
      var next := Envelope(kind, s.sequence + 1, payload, false);
      RecordedOneMore(s.sequence, s.recorded, Entry(s.clientId, next, s.selection));
      OrderedOneMore(s.channel, s.lastSequence, s.sequence, next);
    case PublishElsewhere(entry, _) =>
      var next := entry.envelope.(sequence := s.sequence + 1);
      RecordedOneMore(s.sequence, s.recorded, entry.(envelope := next));
      assert s.recorded + [] == s.recorded;
      OrderedOneMore(s.channel, s.lastSequence, s.sequence, next);
    case Deliver =>
      if s.channel != [] {
        OrderedTail(s.channel, s.lastSequence, s.sequence);
        OrderedOneMore(s.applied, 0, s.lastSequence, s.channel[0]);
      }
    case Disconnect => OrderedNone(s.lastSequence, s.sequence);
    case Reconnect(selection) => ResumedInOrder(s, selection);
  }

  lemma {:induction false} RunKeeps(s: Link, run: seq<Event>)
    requires Inv(s)
    ensures Inv(Exec(s, run))
    decreases |run|
  {
    if run != [] {
      StepKeeps(s, run[0]);
      RunKeeps(Step(s, run[0]), run[1..]);
    }
  }

  /**
   Over every run of one server: the browser applies strictly increasing numbers, so nothing twice
   and nothing out of order, and its filter never has to drop a frame of the current socket.
   */
  lemma NothingTwiceNothingDropped(clientId: ClientId, selection: Selection, run: seq<Event>)
    ensures var s := Exec(Opened(clientId, selection), run);
            && Ordered(s.applied, 0, s.lastSequence)
            && (s.channel != [] ==> Step(s, Deliver).applied == s.applied + [s.channel[0]])
  {
    RunKeeps(Opened(clientId, selection), run);
  }

  function Deliveries(n: nat): seq<Event> {
    seq(n, i => Deliver)
  }

  lemma {:induction false} Drained(s: Link, n: nat)
    requires Inv(s) && n == |s.channel|
    ensures Exec(s, Deliveries(n)).applied == s.applied + s.channel
    decreases n
  {
    if n > 0 {
      assert Deliveries(n)[0] == Deliver && Deliveries(n)[1..] == Deliveries(n - 1);
      StepKeeps(s, Deliver);
      Drained(Step(s, Deliver), n - 1);
      assert s.applied + [s.channel[0]] + s.channel[1..] == s.applied + s.channel;
    } else {
      assert s.applied + s.channel == s.applied;
    }
  }

  /**
   A browser that has seen a number and reconnects applies next, in order, exactly the retained events
   of its own that are above that number and match its selection.
   */
  lemma ResumeDeliversTheMissing(clientId: ClientId, before: Selection, run: seq<Event>, selection: Selection)
    ensures var s := Exec(Opened(clientId, before), run);
            var t := Step(s, Reconnect(selection));
            var missing := Resumed(s, selection);
            && Exec(t, Deliveries(|t.channel|)).applied == s.applied + missing
            && Ordered(missing, s.lastSequence, s.sequence)
            && (s.lastSequence > 0 ==> forall x ::
                  x in missing
                  <==> exists i :: |s.recorded| - 128 <= i < |s.recorded| && 0 <= i
                         && s.recorded[i].clientId == clientId && s.recorded[i].envelope.sequence > s.lastSequence
                         && (s.recorded[i].envelope.kind == Overview
                             || (s.recorded[i].envelope.kind == RunView
                                 && s.recorded[i].selection.runId == selection.runId
                                 && s.recorded[i].selection.scope == selection.scope))
                         && x == s.recorded[i].envelope.(replayed := true))
  {
    var s := Exec(Opened(clientId, before), run);
    RunKeeps(Opened(clientId, before), run);
    ClientKept(Opened(clientId, before), run);
    var t := Step(s, Reconnect(selection));
    StepKeeps(s, Reconnect(selection));
    Drained(t, |t.channel|);
    ReplayMeaning(s.sequence, s.recorded, clientId, selection, s.lastSequence);
    hide Replayed;
    hide Exec;
    hide Replays;
  }

  /** A resume misses retained events exactly when the browser has seen no number yet and there are some for it. */
  lemma ResumeIsCompleteIff(s: Link, selection: Selection)
    requires ServerOk(s.sequence, s.recorded)
    ensures Resumed(s, selection)
            == Replayed(LastEntries(s.recorded, REPLAY_BUFFER_LIMIT), s.clientId, selection, s.lastSequence)
            <==> s.lastSequence > 0 || forall i :: |s.recorded| - 128 <= i < |s.recorded| && 0 <= i ==>
                   !(s.recorded[i].clientId == s.clientId && s.recorded[i].envelope.sequence > 0
                     && (s.recorded[i].envelope.kind == Overview
                         || (s.recorded[i].envelope.kind == RunView
                             && s.recorded[i].selection.runId == selection.runId
                             && s.recorded[i].selection.scope == selection.scope)))
  {
    var all := Replayed(LastEntries(s.recorded, REPLAY_BUFFER_LIMIT), s.clientId, selection, 0);
    assert all == [] || all[0] in all;
    if s.lastSequence == 0 {
      if i :| |s.recorded| - REPLAY_BUFFER_LIMIT <= i < |s.recorded| && 0 <= i
              && Replays(s.recorded[i], s.clientId, selection, 0) {
        MissingOne(s.recorded, s.clientId, selection, 0, s.recorded[i].envelope.(replayed := true));
      } else if all != [] {
        MissingOne(s.recorded, s.clientId, selection, 0, all[0]);
      }
    }
  }

  /** So the first event can be lost: published, recorded, and on its way when the connection broke. */
  lemma FirstEventCanBeLost(selection: Selection) returns (s: Link)
    ensures s == Exec(Opened(1, selection), [Publish(Overview, "", true), Disconnect])
    ensures s.recorded != [] && Step(s, Reconnect(selection)).channel == [] == s.applied
  {
    var start := Opened(1, selection);
    var run := [Publish(Overview, "", true), Disconnect];
    assert run[1..] == [Disconnect] && [Disconnect][1..] == [];
    s := Step(Step(start, run[0]), Disconnect);
    assert Exec(Step(start, run[0]), [Disconnect]) == Exec(s, []);
  }

  lemma MissingOne(recorded: seq<Entry>, clientId: ClientId, selection: Selection, lastSequence: nat, x: Envelope)
    ensures x in Replayed(LastEntries(recorded, REPLAY_BUFFER_LIMIT), clientId, selection, lastSequence)
            <==> exists i :: |recorded| - REPLAY_BUFFER_LIMIT <= i < |recorded| && 0 <= i
                   && Replays(recorded[i], clientId, selection, lastSequence)
                   && x == recorded[i].envelope.(replayed := true)
  {
    var kept := LastEntries(recorded, REPLAY_BUFFER_LIMIT);
    var offset := |recorded| - |kept|;
    ReplayedFrom(kept, clientId, selection, lastSequence, x);
    assert forall i :: 0 <= i < |kept| ==> kept[i] == recorded[offset + i];
    if i :| |recorded| - REPLAY_BUFFER_LIMIT <= i < |recorded| && 0 <= i
            && Replays(recorded[i], clientId, selection, lastSequence)
            && x == recorded[i].envelope.(replayed := true) {
      assert kept[i - offset] == recorded[i];
    }
  }

  lemma {:induction false} ClientKept(s: Link, run: seq<Event>)
    ensures Exec(s, run).clientId == s.clientId
    decreases |run|
  {
    if run != [] {
      ClientKept(Step(s, run[0]), run[1..]);
    }
  }

  lemma {:induction false} SequenceGrows(s: Link, run: seq<Event>)
    ensures s.sequence <= Exec(s, run).sequence
    decreases |run|
  {
    if run != [] {
      SequenceGrows(Step(s, run[0]), run[1..]);
    }
  }

  /** Nothing under way or recorded carries a number the server has not handed out. */
  ghost predicate ServedUpTo(s: Link) {
    ServerOk(s.sequence, s.recorded) && Ordered(s.channel, 0, s.sequence)
  }

  lemma OrderedFrom(es: seq<Envelope>, above: nat, lower: nat, upTo: nat)
    requires Ordered(es, above, upTo) && lower <= above
    ensures Ordered(es, lower, upTo)
  {
  }

  lemma ServedStep(s: Link, e: Event)
    requires ServedUpTo(s)
    ensures ServedUpTo(Step(s, e))
  {
    hide ServerOk;
    hide Ordered;
    hide Resumed;
    match e
    case Publish(kind, payload, _) =>
      var next := Envelope(kind, s.sequence + 1, payload, false);
      RecordedOneMore(s.sequence, s.recorded, Entry(s.clientId, next, s.selection));
      OrderedOneMore(s.channel, 0, s.sequence, next);
    case PublishElsewhere(entry, _) =>
      var next := entry.envelope.(sequence := s.sequence + 1);
      RecordedOneMore(s.sequence, s.recorded, entry.(envelope := next));
      assert s.recorded + [] == s.recorded;
      OrderedOneMore(s.channel, 0, s.sequence, next);
    case Deliver =>
      if s.channel != [] {
        OrderedTail(s.channel, 0, s.sequence);
        OrderedFrom(s.channel[1..], s.channel[0].sequence, 0, s.sequence);
      }
    case Disconnect => OrderedNone(0, s.sequence);
    case Reconnect(selection) =>
      ResumedInOrder(s, selection);
      OrderedFrom(Resumed(s, selection), s.lastSequence, 0, s.sequence);
  }

  /**
   "One server" matters: a browser that kept number L from an earlier server process applies nothing at
   all, through any publications and reconnects, until the new process has handed out more than L numbers.
   */
  lemma {:induction false} RestartedServerIsSilent(s: Link, run: seq<Event>)
    requires ServedUpTo(s) && Exec(s, run).sequence <= s.lastSequence
    ensures Exec(s, run).applied == s.applied && Exec(s, run).lastSequence == s.lastSequence
    decreases |run|
  {
    if run != [] {
      var t := Step(s, run[0]);
      SequenceGrows(t, run[1..]);
      ServedStep(s, run[0]);
      RestartedServerIsSilent(t, run[1..]);
    }
  }

  /** Among the frames under way, the last one is applied exactly if its number is above the kept one. */
  lemma {:induction false} LastFrame(s: Link, n: nat)
    requires Ordered(s.channel, 0, s.sequence) && n == |s.channel| > 0
    ensures var u, last := Exec(s, Deliveries(n)), s.channel[n - 1];
            && s.applied <= u.applied
            && (last in u.applied[|s.applied|..] <==> last.sequence > s.lastSequence)
    decreases n
  {
    var t, first := Step(s, Deliver), s.channel[0];
    assert Deliveries(n)[0] == Deliver && Deliveries(n)[1..] == Deliveries(n - 1);
    assert t.applied == s.applied || t.applied == s.applied + [first];
    if n == 1 {
      assert Exec(t, Deliveries(0)) == t;
    } else {
      var last := s.channel[n - 1];
      assert t.channel[n - 2] == last && first.sequence < last.sequence;
      OrderedTail(s.channel, 0, s.sequence);
      OrderedFrom(s.channel[1..], first.sequence, 0, s.sequence);
      hide Ordered;
      LastFrame(t, n - 1);
      AddedInTwo(s.applied, t.applied, Exec(t, Deliveries(n - 1)).applied, last);
    }
  }

  lemma AddedInTwo(before: seq<Envelope>, between: seq<Envelope>, after: seq<Envelope>, x: Envelope)
    requires before <= between <= after
    ensures x in after[|before|..] <==> x in between[|before|..] || x in after[|between|..]
  {
    assert after[|before|..] == between[|before|..] + after[|between|..];
  }

  /**
   When it gets through again: the next event published to the browser is applied, once everything under way
   has arrived, if and only if the server has caught up with the number the browser kept.
   */
  lemma NextEventArrivesIff(s: Link, kind: Kind, payload: string, recordHistory: bool)
    requires ServedUpTo(s) && s.connected
    ensures var t := Step(s, Publish(kind, payload, recordHistory));
            var u := Exec(t, Deliveries(|t.channel|));
            && s.applied <= u.applied
            && (Envelope(kind, s.sequence + 1, payload, false) in u.applied[|s.applied|..]
                <==> s.lastSequence <= s.sequence)
  {
    var t := Step(s, Publish(kind, payload, recordHistory));
    ServedStep(s, Publish(kind, payload, recordHistory));
    LastFrame(t, |t.channel|);
  }

  /** The browser as it is, in front of a server that has just been started. */
  function Restarted(s: Link): Link {
    s.(sequence := 0, recorded := [], connected := false, channel := [])
  }

  /** The first event after a restart is lost on a browser that has seen one before it. */
  lemma FrameDroppedAfterRestart(selection: Selection) returns (s: Link)
    ensures s == Step(Restarted(Exec(Opened(1, selection), [Publish(Overview, "", true), Deliver])), Reconnect(selection))
    ensures ServedUpTo(s) && s.connected
    ensures var t := Step(s, Publish(Overview, "news", true));
            Exec(t, Deliveries(|t.channel|)).applied == s.applied
  {
    var start, run := Opened(1, selection), [Publish(Overview, "", true), Deliver];
    assert run[1..] == [Deliver] && [Deliver][1..] == [];
    var seen := Step(Step(start, run[0]), Deliver);
    assert Exec(Step(start, run[0]), [Deliver]) == Exec(seen, []);
    s := Step(Restarted(seen), Reconnect(selection));
    var t := Step(s, Publish(Overview, "news", true));
    assert |t.channel| == 1;
    assert Deliveries(1)[0] == Deliver && Deliveries(1)[1..] == Deliveries(0);
    assert Exec(Step(t, Deliver), Deliveries(0)) == Step(t, Deliver);
  }
}
