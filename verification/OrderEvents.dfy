/**
 * Order-status events: the bounded buffer each order keeps, and the server-sent stream that replays it to a client
 * reconnecting with its Last-Event-ID.
 */
module OrderEvents {
  import opened Options
  import opened Decimals
  import opened JsNumbers
  import Doubles

  const MAX_BUFFERED_EVENTS_PER_ORDER: nat := 100

  datatype Event = Event(id: nat, order: int, status: string, occurredAt: string)

  // ---- Histories ----

  /** The history of one order within the log of everything emitted. */
  function OfOrder(log: seq<Event>, order: int): (events: seq<Event>) {
    if log == [] then []
    else
      var last := log[|log| - 1];
      OfOrder(log[..|log| - 1], order) + if last.order == order then [last] else []
  }

  /** The events a filter on `id > lastId` keeps. */
  function After(events: seq<Event>, lastId: nat): (kept: seq<Event>) {
    if events == [] then []
    else
      var last := events[|events| - 1];
      After(events[..|events| - 1], lastId) + if last.id > lastId then [last] else []
  }

  function TakeLast(n: nat, events: seq<Event>): (r: seq<Event>)
    ensures |r| == if |events| < n then |events| else n
  {
    if |events| <= n then events else events[|events| - n..]
  }

  /** What a client that last saw `lastId` of an order is sent when it reconnects. */
  function Replay(log: seq<Event>, order: int, lastId: nat): seq<Event> {
    TakeLast(MAX_BUFFERED_EVENTS_PER_ORDER, After(OfOrder(log, order), lastId))
  }

  ghost predicate Increasing(events: seq<Event>) {
    forall i, j | 0 <= i < j < |events| :: events[i].id < events[j].id
  }

  /** Ids count the emitted events of all orders together, from 1. */
  ghost predicate Numbered(log: seq<Event>) {
    forall i | 0 <= i < |log| :: log[i].id == i + 1
  }

  lemma {:induction false} OfOrderIncreasing(log: seq<Event>, order: int)
    requires Numbered(log)
    ensures Increasing(OfOrder(log, order))
    ensures forall e | e in OfOrder(log, order) :: e in log && e.order == order
    ensures forall e | e in OfOrder(log, order) :: 0 < e.id <= |log|
  {
    if log != [] {
      OfOrderIncreasing(log[..|log| - 1], order);
    }
  }

  /** On strictly increasing ids the filter is a suffix. */
  lemma {:induction false} AfterIsSuffix(events: seq<Event>, lastId: nat) returns (k: nat)
    requires Increasing(events)
    ensures k <= |events| && After(events, lastId) == events[k..]
    ensures forall i | 0 <= i < |events| :: events[i].id > lastId <==> i >= k
  {
    if events == [] {
      k := 0;
    } else {
      var init := events[..|events| - 1];
      k := AfterIsSuffix(init, lastId);
      if events[|events| - 1].id > lastId {
        assert events[k..] == init[k..] + [events[|events| - 1]];
      } else {
        k := |events|;
      }
    }
  }

  lemma {:induction false} AfterFrom(events: seq<Event>, lastId: nat, k: nat)
    requires Increasing(events) && k <= |events|
    requires k > 0 ==> events[k - 1].id <= lastId
    requires k < |events| ==> events[k].id > lastId
    ensures After(events, lastId) == events[k..]
  {
    var m := AfterIsSuffix(events, lastId);
  }

  lemma DropKeepsIncreasing(events: seq<Event>, d: nat)
    requires Increasing(events) && d <= |events|
    ensures Increasing(events[d..])
  {
  }

  lemma SliceOfSuffix(events: seq<Event>, i: nat, j: nat)
    requires i <= j <= |events|
    ensures events[i..][j - i..] == events[j..]
  {
  }

  lemma AfterDropped(events: seq<Event>, lastId: nat, d: nat, k: nat)
    requires Increasing(events) && d <= |events| && k <= |events|
    requires k > 0 ==> events[k - 1].id <= lastId
    requires k < |events| ==> events[k].id > lastId
    ensures After(events[d..], lastId) == events[if k < d then d else k..]
  {
    var kept := events[d..];
    DropKeepsIncreasing(events, d);
    if k <= d {
      assert kept != [] && d > k ==> events[k].id < kept[0].id;
      AfterFrom(kept, lastId, 0);
      assert kept[0..] == kept;
    } else {
      AfterFrom(kept, lastId, k - d);
      SliceOfSuffix(events, d, k);
    }
  }

  lemma AfterBoth(events: seq<Event>, lastId: nat, d: nat) returns (k: nat)
    requires Increasing(events) && d <= |events|
    ensures k <= |events| && After(events, lastId) == events[k..]
    ensures After(events[d..], lastId) == events[if k < d then d else k..]
  {
    k := AfterIsSuffix(events, lastId);
    AfterDropped(events, lastId, d, k);
  }

  lemma TakeLastOfSuffix(n: nat, events: seq<Event>, k: nat)
    requires k <= |events|
    ensures var d := if |events| < n then 0 else |events| - n;
            TakeLast(n, events) == events[d..] && TakeLast(n, events[k..]) == events[if k < d then d else k..]
  {
    if k < |events| - n {
      SliceOfSuffix(events, k, |events| - n);
    }
  }

  /** Filtering the truncated buffer gives the truncation of the filtered history. */
  lemma FilterCommutesWithTruncation(n: nat, events: seq<Event>, lastId: nat)
    requires Increasing(events)
    ensures After(TakeLast(n, events), lastId) == TakeLast(n, After(events, lastId))
  {
    var k := AfterBoth(events, lastId, if |events| < n then 0 else |events| - n);
    TakeLastOfSuffix(n, events, k);
  }

  lemma TruncationGrows(n: nat, events: seq<Event>, event: Event)
    requires n > 0
    ensures var buffer := TakeLast(n, events) + [event];
            TakeLast(n, events + [event]) == if |buffer| > n then buffer[|buffer| - n..] else buffer
  {
    var buffer, all := TakeLast(n, events) + [event], events + [event];
    if |events| >= n {
      assert all[|all| - n..] == events[|events| - n + 1..] + [event];
      assert buffer[1..] == events[|events| - n..][1..] + [event];
    }
  }

  lemma LogGrows(log: seq<Event>, event: Event, order: int)
    ensures OfOrder(log + [event], order) == OfOrder(log, order) + if event.order == order then [event] else []
  {
    assert (log + [event])[..|log|] == log;
  }

  // ---- The service ----

  /** Each order's buffer is the tail of its history. */
  ghost predicate Buffered(buffers: map<int, seq<Event>>, log: seq<Event>) {
    && (forall o {:trigger OfOrder(log, o)} | o in buffers ::
          buffers[o] == TakeLast(MAX_BUFFERED_EVENTS_PER_ORDER, OfOrder(log, o)))
    && (forall o {:trigger OfOrder(log, o)} | o !in buffers :: OfOrder(log, o) == [])
  }

  lemma EmitKeepsBuffered(buffers: map<int, seq<Event>>, log: seq<Event>, event: Event, buffer: seq<Event>)
    requires Buffered(buffers, log)
    requires var longer := (if event.order in buffers then buffers[event.order] else []) + [event];
             buffer == if |longer| > MAX_BUFFERED_EVENTS_PER_ORDER
                       then longer[|longer| - MAX_BUFFERED_EVENTS_PER_ORDER..] else longer
    ensures Buffered(buffers[event.order := buffer], log + [event])
  {
    var before := OfOrder(log, event.order);
    assert (if event.order in buffers then buffers[event.order] else []) == TakeLast(MAX_BUFFERED_EVENTS_PER_ORDER,
        before);
    TruncationGrows(MAX_BUFFERED_EVENTS_PER_ORDER, before, event);
    LogGrows(log, event, event.order);
    forall o | o != event.order ensures OfOrder(log + [event], o) == OfOrder(log, o) {
      LogGrows(log, event, o);
      assert OfOrder(log, o) + [] == OfOrder(log, o);
    }
  }

  /** `log` is history: every event this process has emitted. */
  class OrderEventsService {
    var buffers: map<int, seq<Event>>
    var nextEventId: nat
    ghost var log: seq<Event>

    ghost predicate Valid()
      reads this
    {
      nextEventId == |log| + 1 && Numbered(log) && Buffered(buffers, log)
    }

    constructor ()
      ensures Valid() && log == []
    {
      buffers, nextEventId, log := map[], 1, [];
    }

    /** The log grows by the event returned, which carries the next number; every buffer stays the tail of its
        order's history. */
    method EmitStatusChanged(order: int, status: string, now: string) returns (event: Event)
      requires Valid()
      modifies this
      ensures Valid() && log == old(log) + [event]
      ensures event == Event(|log|, order, status, now)
    {
      event := Event(nextEventId, order, status, now);
      nextEventId := nextEventId + 1;
      var buffer := if order in buffers then buffers[order] else [];
      buffer := buffer + [event];
      if |buffer| > MAX_BUFFERED_EVENTS_PER_ORDER {
        buffer := buffer[|buffer| - MAX_BUFFERED_EVENTS_PER_ORDER..];
      }
      EmitKeepsBuffered(buffers, log, event, buffer);
      buffers := buffers[order := buffer];
      log := log + [event];
    }

    /** The buffer answers as the order's whole history would, up to the last hundred of what was missed. */
    function GetEventsAfter(order: int, lastEventId: nat): (missed: seq<Event>)
      requires Valid()
      reads this
      ensures missed == Replay(log, order, lastEventId)
    {
      OfOrderIncreasing(log, order);
      FilterCommutesWithTruncation(MAX_BUFFERED_EVENTS_PER_ORDER, OfOrder(log, order), lastEventId);
      After(if order in buffers then buffers[order] else [], lastEventId)
    }
  }

  // ---- The Last-Event-ID header ----

  /** A missing or empty header, and one that is not a whole number from zero up, count as 0. */
  function ParseLastEventId(header: Option<string>): (lastId: nat) {
    if header.None? || header.value == "" then 0
    else
      match Number(header.value)
      case Finite(x) => if x.Floor as real != x || x < 0.0 then 0 else x.Floor
      case _ => 0
  }

  /** The id written on the wire comes back unchanged in the header - any id, for the counter is a double too and gets
      no further than 2^53. */
  lemma HeaderRoundTrip(id: nat)
    requires id <= Doubles.MAX_EXACT
    ensures ParseLastEventId(Some(Decimal(id))) == id
  {
    DecimalSpells(id);
    assert (id as real).Floor == id;
  }

  /** The replay starts after event k > 0 exactly when the header spells a number whose nearest double is k - in decimal
      with sign, leading zeros, fraction or exponent, in hexadecimal, octal or binary, with blanks around it. Every
      other header - absent, blank, negative, fractional, infinite or no number at all - replays from the beginning. */
  lemma ResumesIffSpelled(header: Option<string>, k: nat)
    requires k > 0
    ensures ParseLastEventId(header) == k <==>
              header.Some? &&
              exists before, sp, after ::
                Spells(header.value, before, sp, after) && Rounded(Value(sp)) == Finite(k as real)
  {
    assert (k as real).Floor == k;
    if header.Some? {
      if before, sp, after :|
        Spells(header.value, before, sp, after) && Rounded(Value(sp)) == Finite(k as real) {
        SpelledValue(header.value, before, sp, after);
      } else if ParseLastEventId(header) == k {
        var before, sp, after := NumberIsSpelled(header.value);
      }
    }
  }

  // ---- The stream's lines ----

  datatype Line =
    | RetryLine(milliseconds: nat)
    | IdLine(id: string)
    | NameLine(name: string)
    | DataLine(orderId: int, status: string, occurredAt: string)

  function Frame(event: Event): seq<Line> {
    [IdLine(Decimal(event.id)), NameLine("order.status"), DataLine(event.order, event.status, event.occurredAt)]
  }

  function Frames(events: seq<Event>): seq<Line> {
    if events == [] then [] else Frames(events[..|events| - 1]) + Frame(events[|events| - 1])
  }

  /** What a client makes of the lines: one event for each id, name and data line in a row. */
  function ReadFrames(lines: seq<Line>): Option<seq<Event>> {
    if lines == [] then Some([])
    else if |lines| < 3 then None
    else
      var n := |lines|;
      match (ReadFrames(lines[..n - 3]), lines[n - 3], lines[n - 1])
      case (Some(events), IdLine(id), DataLine(order, status, at)) =>
        (match ParseDecimal(id)
         case Some(k) => Some(events + [Event(k, order, status, at)])
         case None => None)
      case _ => None
  }

  /** Nothing is lost on the wire: the client reads back the very events written. */
  lemma {:induction false} ClientReadsWhatWasWritten(events: seq<Event>)
    ensures ReadFrames(Frames(events)) == Some(events)
  {
    if events != [] {
      var init, last := events[..|events| - 1], events[|events| - 1];
      ClientReadsWhatWasWritten(init);
      ParseInvertsDecimal(last.id);
      var lines := Frames(events);
      assert lines[..|lines| - 3] == Frames(init);
      assert init + [last] == events;
    }
  }

  lemma FramesGrow(events: seq<Event>, i: nat)
    requires i < |events|
    ensures Frames(events[..i + 1]) == Frames(events[..i]) + Frame(events[i])
  {
    assert events[..i + 1][..i] == events[..i];
  }

  /** The handler up to its subscription: 404 for an unknown order, otherwise the reconnection delay and then the
      missed events. */
  method StreamOrderEvents(service: OrderEventsService, orderExists: bool, order: int, header: Option<string>)
    returns (response: Option<seq<Line>>)
    requires service.Valid()
    ensures response.Some? <==> orderExists
    ensures orderExists ==>
              && response.value != [] && response.value[0] == RetryLine(1000)
              && ReadFrames(response.value[1..]) == Some(Replay(service.log, order, ParseLastEventId(header)))
  {
    if !orderExists {
      return None;
    }
    var lastEventId := ParseLastEventId(header);
    var written := [RetryLine(1000)];
    var missed := service.GetEventsAfter(order, lastEventId);
    for i := 0 to |missed|
      invariant written == [RetryLine(1000)] + Frames(missed[..i])
    {
      FramesGrow(missed, i);
      written := written + Frame(missed[i]);
    }
    assert missed[..|missed|] == missed;
    assert written[1..] == Frames(missed);
    ClientReadsWhatWasWritten(missed);
    return Some(written);
  }

  // ---- Clients that lose their connection ----

  /** A client keeps what it has received; `wire` is written by the server and not yet received. */
  datatype Client = Client(order: int, received: seq<Event>, wire: seq<Event>, connected: bool)

  datatype State = State(log: seq<Event>, clients: map<nat, Client>)

  /** `Connect` is one step: the handler reads the buffer, writes it out and subscribes without yielding. An `Emit`
      takes the counter's next value, of which there are 2^53. */
  datatype Action =
    | Emit(order: int, status: string, at: string)
    | Connect(c: nat)
    | Receive(c: nat)
    | Disconnect(c: nat)

  function LastIdHeader(client: Client): Option<string> {
    if client.received == [] then None else Some(Decimal(client.received[|client.received| - 1].id))
  }

  function LastId(client: Client): nat {
    if client.received == [] then 0 else client.received[|client.received| - 1].id
  }

  predicate Enabled(s: State, a: Action) {
    match a
    case Emit(_, _, _) => |s.log| < Doubles.MAX_EXACT
    case Connect(c) => c in s.clients && !s.clients[c].connected
    case Receive(c) => c in s.clients && s.clients[c].wire != []
    case Disconnect(c) => c in s.clients && s.clients[c].connected
  }

  function Notified(client: Client, event: Event): Client {
    if client.connected && client.order == event.order then client.(wire := client.wire + [event]) else client
  }

  function Connected(client: Client, log: seq<Event>): Client {
    client.(wire := Replay(log, client.order, ParseLastEventId(LastIdHeader(client))), connected := true)
  }

  function Apply(s: State, a: Action): State
    requires Enabled(s, a)
  {
    match a
    case Emit(order, status, at) =>
      var event := Event(|s.log| + 1, order, status, at);
      State(s.log + [event], map c | c in s.clients :: Notified(s.clients[c], event))
    case Connect(c) => s.(clients := s.clients[c := Connected(s.clients[c], s.log)])
    case Receive(c) =>
      var client := s.clients[c];
      s.(clients := s.clients[c := client.(received := client.received + [client.wire[0]], wire := client.wire[1..])])
    case Disconnect(c) => s.(clients := s.clients[c := s.clients[c].(wire := [], connected := false)])
  }

  ghost predicate Valid(s: State, acts: seq<Action>)
    decreases |acts|
  {
    acts == [] || (Enabled(s, acts[0]) && Valid(Apply(s, acts[0]), acts[1..]))
  }

  ghost function Run(s: State, acts: seq<Action>): State
    requires Valid(s, acts)
    decreases |acts|
  {
    if acts == [] then s else Run(Apply(s, acts[0]), acts[1..])
  }

  ghost predicate Init(s: State) {
    s.log == [] && forall c | c in s.clients :: var client := s.clients[c];
                                                client.received == [] && client.wire == [] && !client.connected
  }

  function Delivered(client: Client): seq<Event> {
    client.received + client.wire
  }

  // ---- Whatever the gaps: never twice, never out of order ----

  /** Strictly increasing ids, all from the client's own order. */
  ghost predicate InOrder(s: State, c: nat)
    requires c in s.clients
  {
    && Increasing(Delivered(s.clients[c]))
    && forall e | e in Delivered(s.clients[c]) :: e in OfOrder(s.log, s.clients[c].order)
  }

  ghost predicate OrderInv(s: State) {
    && Numbered(s.log) && |s.log| <= Doubles.MAX_EXACT
    && forall c {:trigger InOrder(s, c)} | c in s.clients :: InOrder(s, c)
  }

  lemma EmitKeepsOrder(s: State, a: Action, c: nat)
    requires OrderInv(s) && a.Emit? && Enabled(s, a) && c in s.clients
    ensures InOrder(Apply(s, a), c)
  {
    var client := s.clients[c];
    var event := Event(|s.log| + 1, a.order, a.status, a.at);
    assert InOrder(s, c);
    LogGrows(s.log, event, client.order);
    OfOrderIncreasing(s.log, client.order);
    var client' := Notified(client, event);
    assert Apply(s, a).clients[c] == client';
    if client' != client {
      assert Delivered(client') == Delivered(client) + [event];
    }
  }

  /** A reconnecting client is sent exactly the tail of what it has missed. */
  lemma ReplayIsTheMissedTail(s: State, c: nat)
    requires OrderInv(s) && Enabled(s, Connect(c))
    ensures var client := s.clients[c];
            Connected(client, s.log).wire ==
            TakeLast(MAX_BUFFERED_EVENTS_PER_ORDER, After(OfOrder(s.log, client.order), LastId(client)))
  {
    var client := s.clients[c];
    if client.received != [] {
      assert InOrder(s, c);
      OfOrderIncreasing(s.log, client.order);
      assert client.received[|client.received| - 1] in Delivered(client);
      HeaderRoundTrip(LastId(client));
    }
  }

  lemma AppendIncreasing(a: seq<Event>, b: seq<Event>, bound: nat)
    requires Increasing(a) && Increasing(b)
    requires a != [] ==> a[|a| - 1].id <= bound
    requires b != [] ==> b[0].id > bound
    ensures Increasing(a + b)
  {
  }

  lemma ReceivedIncreasing(client: Client)
    requires Increasing(Delivered(client))
    ensures Increasing(client.received)
  {
    assert forall i | 0 <= i < |client.received| :: Delivered(client)[i] == client.received[i];
  }

  lemma TailAbove(n: nat, history: seq<Event>, lastId: nat)
    requires Increasing(history)
    ensures var tail := TakeLast(n, After(history, lastId));
            && Increasing(tail) && (tail != [] ==> tail[0].id > lastId)
            && forall e | e in tail :: e in history
  {
    var k := AfterIsSuffix(history, lastId);
    TakeLastOfSuffix(n, history, k);
    var tail := TakeLast(n, After(history, lastId));
    var d := |history| - |tail|;
    assert tail == history[d..];
    DropKeepsIncreasing(history, d);
    assert tail != [] ==> tail[0] == history[d];
  }

  lemma ConnectKeepsOrder(s: State, c: nat)
    requires OrderInv(s) && Enabled(s, Connect(c))
    ensures InOrder(Apply(s, Connect(c)), c)
  {
    assert InOrder(s, c);
    var client := s.clients[c];
    var history := OfOrder(s.log, client.order);
    ReplayIsTheMissedTail(s, c);
    OfOrderIncreasing(s.log, client.order);
    TailAbove(MAX_BUFFERED_EVENTS_PER_ORDER, history, LastId(client));
    ReceivedIncreasing(client);
    var wire := Connected(client, s.log).wire;
    AppendIncreasing(client.received, wire, LastId(client));
    forall e | e in client.received + wire ensures e in history {
      assert e in client.received ==> e in Delivered(client);
    }
  }

  lemma ClientStepKeepsOrder(s: State, a: Action)
    requires OrderInv(s) && Enabled(s, a) && (a.Receive? || a.Disconnect?)
    ensures InOrder(Apply(s, a), a.c)
  {
    assert InOrder(s, a.c);
    var client, client' := s.clients[a.c], Apply(s, a).clients[a.c];
    assert Delivered(client') <= Delivered(client);
  }

  lemma OrderInvStep(s: State, a: Action)
    requires OrderInv(s) && Enabled(s, a)
    ensures OrderInv(Apply(s, a))
  {
    var s' := Apply(s, a);
    forall c | c in s'.clients ensures InOrder(s', c) {
      if a.Emit? {
        EmitKeepsOrder(s, a, c);
      } else if c == a.c {
        if a.Connect? {
          ConnectKeepsOrder(s, c);
        } else {
          ClientStepKeepsOrder(s, a);
        }
      } else {
        assert InOrder(s, c);
      }
    }
  }

  lemma {:induction false} OrderInvRun(s: State, acts: seq<Action>)
    requires OrderInv(s) && Valid(s, acts)
    ensures OrderInv(Run(s, acts))
    decreases |acts|
  {
    if acts != [] {
      OrderInvStep(s, acts[0]);
      OrderInvRun(Apply(s, acts[0]), acts[1..]);
    }
  }

  /** Across any number of sessions a client sees events of its order only, each at most once, in the order emitted. */
  lemma NeverTwiceNeverOutOfOrder(init: State, acts: seq<Action>, c: nat)
    requires Init(init) && Valid(init, acts) && c in Run(init, acts).clients
    ensures var end := Run(init, acts); var client := end.clients[c];
            Increasing(client.received) && forall e | e in client.received :: e in OfOrder(end.log, client.order)
  {
    OrderInvRun(init, acts);
    var end := Run(init, acts);
    assert InOrder(end, c);
    ReceivedIncreasing(end.clients[c]);
  }

  // ---- Gaps of at most a hundred: the whole history ----

  ghost function Missed(s: State, c: nat): nat
    requires c in s.clients
  {
    |After(OfOrder(s.log, s.clients[c].order), LastId(s.clients[c]))|
  }

  /** A connected client has been sent its order's whole history; a disconnected one holds a prefix of it. */
  ghost predicate Complete(s: State, c: nat)
    requires c in s.clients
  {
    var client := s.clients[c];
    if client.connected then Delivered(client) == OfOrder(s.log, client.order)
    else client.wire == [] && client.received <= OfOrder(s.log, client.order)
  }

  lemma PrefixLeavesTheRest(history: seq<Event>, received: seq<Event>, lastId: nat)
    requires Increasing(history) && received <= history
    requires lastId == if received == [] then 0 else received[|received| - 1].id
    requires forall e | e in history :: e.id > 0
    ensures After(history, lastId) == history[|received|..]
  {
    assert received != [] ==> received[|received| - 1] == history[|received| - 1];
    assert |received| < |history| ==> history[|received|] in history;
    AfterFrom(history, lastId, |received|);
  }

  lemma TailCompletes(n: nat, history: seq<Event>, received: seq<Event>)
    requires received <= history
    ensures var rest := history[|received|..]; received + TakeLast(n, rest) == history <==> |rest| <= n
  {
    var rest := history[|received|..];
    assert received + rest == history;
    if |rest| > n {
      assert |received + TakeLast(n, rest)| < |history|;
    }
  }

  lemma ConnectDelivers(s: State, c: nat)
    requires OrderInv(s) && Enabled(s, Connect(c))
    ensures var client, client' := s.clients[c], Apply(s, Connect(c)).clients[c];
            && client'.connected && client'.order == client.order
            && Delivered(client') == client.received + TakeLast(MAX_BUFFERED_EVENTS_PER_ORDER,
                                                                After(OfOrder(s.log, client.order), LastId(client)))
  {
    ReplayIsTheMissedTail(s, c);
  }

  /** Reconnecting is seamless exactly when at most a hundred events were missed. */
  lemma SeamlessIffGapFits(s: State, c: nat)
    requires OrderInv(s) && Enabled(s, Connect(c)) && s.clients[c].received <= OfOrder(s.log, s.clients[c].order)
    ensures Complete(Apply(s, Connect(c)), c) <==> Missed(s, c) <= 100
  {
    var client := s.clients[c];
    var history := OfOrder(s.log, client.order);
    ConnectDelivers(s, c);
    OfOrderIncreasing(s.log, client.order);
    PrefixLeavesTheRest(history, client.received, LastId(client));
    TailCompletes(MAX_BUFFERED_EVENTS_PER_ORDER, history, client.received);
  }

  /** Whenever this client connects it has missed at most a hundred events; the others may miss what they like. */
  ghost predicate GapsFit(s: State, acts: seq<Action>, c: nat)
    requires Valid(s, acts)
    decreases |acts|
  {
    acts == [] ||
    ((acts[0] == Connect(c) ==> Missed(s, c) <= 100) &&
     GapsFit(Apply(s, acts[0]), acts[1..], c))
  }

  lemma EmitKeepsComplete(s: State, a: Action, c: nat)
    requires OrderInv(s) && a.Emit? && Enabled(s, a) && c in s.clients && Complete(s, c)
    ensures Complete(Apply(s, a), c)
  {
    var client := s.clients[c];
    var event := Event(|s.log| + 1, a.order, a.status, a.at);
    LogGrows(s.log, event, client.order);
    assert Delivered(client) + [event] == client.received + (client.wire + [event]);
  }

  lemma ClientStepKeepsComplete(s: State, a: Action)
    requires Enabled(s, a) && (a.Receive? || a.Disconnect?) && Complete(s, a.c)
    ensures Complete(Apply(s, a), a.c)
  {
    var client := s.clients[a.c];
    if a.Receive? {
      assert Delivered(client) == Delivered(Apply(s, a).clients[a.c]);
    }
  }

  lemma CompleteStep(s: State, a: Action, c: nat)
    requires OrderInv(s) && c in s.clients && Complete(s, c) && Enabled(s, a)
    requires a == Connect(c) ==> Missed(s, c) <= 100
    ensures Complete(Apply(s, a), c)
  {
    if a.Emit? {
      EmitKeepsComplete(s, a, c);
    } else if c == a.c {
      if a.Connect? {
        SeamlessIffGapFits(s, c);
      } else {
        ClientStepKeepsComplete(s, a);
      }
    }
  }

  lemma {:induction false} CompleteRun(s: State, acts: seq<Action>, c: nat)
    requires OrderInv(s) && c in s.clients && Complete(s, c) && Valid(s, acts) && GapsFit(s, acts, c)
    ensures c in Run(s, acts).clients && Complete(Run(s, acts), c)
    decreases |acts|
  {
    if acts != [] {
      OrderInvStep(s, acts[0]);
      CompleteStep(s, acts[0], c);
      CompleteRun(Apply(s, acts[0]), acts[1..], c);
    }
  }

  /** A client that never misses more than a hundred events receives, over all its sessions, its order's history from
      the first event on; once connected with nothing left on the wire it has all of it. */
  lemma ReplayEqualsHistory(init: State, acts: seq<Action>, c: nat)
    requires Init(init) && Valid(init, acts) && GapsFit(init, acts, c) && c in init.clients
    ensures c in Run(init, acts).clients
    ensures var end := Run(init, acts); var client := end.clients[c];
            && client.received <= OfOrder(end.log, client.order)
            && (client.connected && client.wire == [] ==> client.received == OfOrder(end.log, client.order))
  {
    CompleteRun(init, acts, c);
    var client := Run(init, acts).clients[c];
    assert client.received <= Delivered(client);
  }
}
