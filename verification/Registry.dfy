/** The registry of WebSocket connections: two maps of weak references, plain before secure. */
module Registry {
  import opened Frames
  import opened WsConnection
  import WsModel

  type Id = string

  /** What `Forward` is called with: a message to write, or a status that closes. */
  datatype Order = Text(message: Message) | CloseStatus(code: nat)

  function Obeyed(v: View, order: Order, hooked: bool): View {
    if order.Text?
      then var frame := Encode(ONE_FRAGMENT_TEXT, order.message); Pushed(Heard(v, frame, hooked), frame)
      else Stopped(v)
  }

  /** From `v` to `w` a connection has obeyed the order. */
  predicate HasObeyed(v: View, w: View, order: Order, hooked: bool) {
    match order
    case Text(message) =>
      && |w.queue| == |v.queue| + 1 && w.queue[..|v.queue|] == v.queue && SaysText(w.queue[|v.queue|], message)
      && (w.closed <==> v.closed || |w.queue| > 100)
      && w.calls == v.calls + (if hooked then [OnMessageOut(w.queue[|v.queue|])] else [])
                            + (if w.closed && !v.closed then [OnClose, CancelAll, ShutDown, CloseHandle] else [])
                            + (if v.queue == [] then [AsyncWrite(w.queue[0])] else [])
    case CloseStatus(_) =>
      && w.closed && w.queue == v.queue
      && w.calls == v.calls + (if v.closed then [] else [OnClose, CancelAll, ShutDown, CloseHandle])
  }

  lemma ObeyedSays(v: View, order: Order, hooked: bool)
    ensures HasObeyed(v, Obeyed(v, order, hooked), order, hooked)
  {
    if order.Text? { PushSays(v, order.message, hooked); }
  }

  /** A weak reference is dead when its connection has no owner left. */
  ghost predicate Live(conns: map<Id, WSConnection>, id: Id)
    reads conns.Values
  {
    id in conns && conns[id].owners > 0
  }

  ghost function WithoutDead(conns: map<Id, WSConnection>, id: Id): map<Id, WSConnection>
    reads conns.Values
  {
    if id in conns && conns[id].owners == 0 then conns - {id} else conns
  }

  class WebServer {
    var wsConns: map<Id, WSConnection>
    var wsSecureConns: map<Id, WSConnection>
    const hooked: bool           // `ws_onmessageout` is set

    constructor (hooked: bool)
      ensures wsConns == wsSecureConns == map[] && this.hooked == hooked
    {
      wsConns, wsSecureConns, this.hooked := map[], map[], hooked;
    }

    /** `insert` leaves an existing entry alone. */
    method WSAddSession(id: Id, secure: bool, conn: WSConnection)
      modifies this
      ensures wsConns == if secure || id in old(wsConns) then old(wsConns) else old(wsConns)[id := conn]
      ensures wsSecureConns == if !secure || id in old(wsSecureConns) then old(wsSecureConns)
          else old(wsSecureConns)[id := conn]
    {
      if !secure {
        if id !in wsConns { wsConns := wsConns[id := conn]; }
      } else {
        if id !in wsSecureConns { wsSecureConns := wsSecureConns[id := conn]; }
      }
    }

    /** Exactly the live connection of this id gets the order; a dead entry of this id is erased. */
    method Forward(id: Id, conns: map<Id, WSConnection>, order: Order) returns (ok: bool, left: map<Id, WSConnection>)
      modifies conns.Values
      ensures ok == old(Live(conns, id)) && left == old(WithoutDead(conns, id))
      ensures ok <==> id in conns && old(conns[id].owners) > 0
      ensures left == if id in conns && !ok then conns - {id} else conns
      ensures ok ==>
                && conns[id].Now() == Obeyed(old(conns[id].Now()), order, hooked)
                && HasObeyed(old(conns[id].Now()), conns[id].Now(), order, hooked)
                && conns[id].owners == old(conns[id].owners)
      ensures forall c :: c in conns.Values && !(ok && c == conns[id]) ==> unchanged(c)
    {
      ok, left := false, conns;
      if id in conns {
        var conn := conns[id];
        if conn.owners > 0 {
          ObeyedSays(conn.Now(), order, hooked);
          match order {
            case Text(message) => conn.Write(message, hooked);
            case CloseStatus(_) => conn.Stop();
          }
          ok := true;
        } else {
          left := conns - {id};
        }
      }
    }

    /** `WSPush` and `WSClose`, which differ in the order only. The secure connections are asked only if no
        plain one took it, so at most one connection ever does; if none, the id is gone from the registry. */
    method Send(id: Id, order: Order) returns (ok: bool)
      modifies this, wsConns.Values, wsSecureConns.Values
      ensures ok == (old(Live(wsConns, id)) || old(Live(wsSecureConns, id)))
      ensures wsConns == old(WithoutDead(wsConns, id))
      ensures wsSecureConns == if old(Live(wsConns, id)) then old(wsSecureConns)
          else old(WithoutDead(wsSecureConns, id))
      ensures ok ==>
                var target := if old(Live(wsConns, id)) then old(wsConns)[id] else old(wsSecureConns)[id];
                && target.Now() == Obeyed(old(target.Now()), order, hooked)
                && HasObeyed(old(target.Now()), target.Now(), order, hooked)
                && (forall c :: c in old(wsConns.Values) + old(wsSecureConns.Values) && c != target ==> unchanged(c))
      ensures !ok ==>
                && id !in wsConns && id !in wsSecureConns
                && (forall c :: c in old(wsConns.Values) + old(wsSecureConns.Values) ==> unchanged(c))
    {
      ok, wsConns := Forward(id, wsConns, order);
      if !ok {
        ok, wsSecureConns := Forward(id, wsSecureConns, order);
      }
    }
  }

  // ----- the same as a thread on its own -----

  function JobOf(order: Order): WsModel.Job {
    if order.Text? then WsModel.Push(order.message) else WsModel.Close
  }

  /** An order found in the registry and carried out, uninterrupted, is the method; a dead entry goes. */
  lemma ForwardIsThread(d: WsModel.Shared, v: View, order: Order, hooked: bool, t: nat)
    requires Matches(d, v) && d.registered && d.queueLock.None?
    ensures var n := Uninterrupted(d, WsModel.Lookup(JobOf(order)), t);
            if WsModel.Destroyed(d)
              then n.pc == WsModel.UnlockRegistry && !n.d.registered && Matches(n.d, v)
              else n.pc == WsModel.LetGo(true) && n.d.registered && Matches(n.d, Obeyed(v, order, hooked))
  {
    var pc := WsModel.Lookup(JobOf(order));
    var n := WsModel.GoForward(d, pc, t);
    Onward(d, pc, t, n);
    if !WsModel.Destroyed(d) {
      assert Matches(n.d, v);
      match order {
        case Text(m) => PushIsObeyed(n.d, v, m, hooked, t);
        case CloseStatus(_) => CloseIsObeyed(n.d, v, t);
      }
    }
  }

  lemma PushIsObeyed(d: WsModel.Shared, v: View, m: Message, hooked: bool, t: nat)
    requires Matches(d, v) && d.registered && d.queueLock.None?
    ensures var n := Uninterrupted(d, WsModel.Encoding(m), t);
            n.pc == WsModel.LetGo(true) && n.d.registered && Matches(n.d, Obeyed(v, Text(m), hooked))
  {
    WriteIsThread(d, v, m, hooked, t);
    PushAlone(d, m, t);
  }

  lemma CloseIsObeyed(d: WsModel.Shared, v: View, t: nat)
    requires Matches(d, v) && d.registered
    ensures var n := Uninterrupted(d, WsModel.Stopping(WsModel.TestFlag, WsModel.ToLetGo(true)), t);
            n.pc == WsModel.LetGo(true) && n.d.registered && Matches(n.d, Stopped(v))
  {
    StopAlone(d, WsModel.ToLetGo(true), t);
    StopMatches(d, v, t);
  }
}
