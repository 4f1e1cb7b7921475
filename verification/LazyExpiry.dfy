/**
 * Lazy expiry against its definition. The registry only expires clients when an operation asks it to; here its
 * answers are compared with what the history of calls says about each client on its own, as if every client were
 * dropped the instant its silence exceeds the timeout.
 */
module LazyExpiry {
  import opened Registry
  import opened RegistryLaws

  datatype Call =
    | Register(id: string)
    | Heartbeat(id: string, resources: set<int>)
    | Unregister(id: string)
    | SetListener(present: bool)
    | ClientsFor(resource: int)
    | InterestsFor(id: string)
    | Count
    | Registered(id: string)

  datatype Timed = Timed(at: real, call: Call)

  datatype Answer = Ack(ok: bool) | Clients(ids: set<string>) | Resources(resources: set<int>) | Number(n: nat)

  // The registry, which expires lazily.

  ghost function Serve(s: State, e: Timed): (State, Answer) {
    match e.call
    case Register(id) => var (t, ok) := RegisterClient(s, id, e.at); (t, Ack(ok))
    case Heartbeat(id, rs) => var (t, ok) := Registry.Heartbeat(s, id, rs, e.at); (t, Ack(ok))
    case Unregister(id) => (UnregisterClient(s, id, e.at), Ack(true))
    case SetListener(present) => (s.(listening := present), Ack(true))
    case ClientsFor(r) => (Expire(s, e.at), Clients(Listed(Expire(s, e.at).index, r)))
    case InterestsFor(id) => (Expire(s, e.at), Resources(InterestsOf(Expire(s, e.at), id)))
    case Count => (Expire(s, e.at), Number(|Expire(s, e.at).clients|))
    case Registered(id) => (Expire(s, e.at), Ack(id in Expire(s, e.at).clients))
  }

  ghost function After(timeout: real, es: seq<Timed>): State {
    if es == [] then Empty(timeout) else Serve(After(timeout, es[..|es| - 1]), es[|es| - 1]).0
  }

  // The definition, one client at a time.

  datatype Session = Absent | Active(info: Info)

  predicate Alive(session: Session, timeout: real, now: real) {
    session.Active? && now - session.info.last <= timeout
  }

  /** What the calls about one client say. Only a live client can be kept alive by a heartbeat. */
  function SessionOf(timeout: real, es: seq<Timed>, id: string): Session {
    if es == [] then Absent else
      var before, e := SessionOf(timeout, es[..|es| - 1], id), es[|es| - 1];
      match e.call
      case Register(x) =>
        if x != id || x == "" then before
        else Active(Info(e.at, if Alive(before, timeout, e.at) then before.info.interests else {}))
      case Heartbeat(x, rs) =>
        if x != id then before
        else if Alive(before, timeout, e.at) then Active(Info(e.at, rs)) else Absent
      case Unregister(x) => if x != id then before else Absent
      case _ => before
  }

  ghost predicate Live(timeout: real, es: seq<Timed>, id: string, now: real) {
    Alive(SessionOf(timeout, es, id), timeout, now)
  }

  ghost predicate LiveFor(timeout: real, es: seq<Timed>, id: string, r: int, now: real) {
    Live(timeout, es, id, now) && r in SessionOf(timeout, es, id).info.interests
  }

  /** The answer the history demands of a call. */
  ghost predicate Right(timeout: real, es: seq<Timed>, e: Timed, answer: Answer) {
    match e.call
    case Register(id) => answer == Ack(id != "")
    case Heartbeat(id, _) => answer == Ack(Live(timeout, es, id, e.at))
    case Unregister(_) => answer == Ack(true)
    case SetListener(_) => answer == Ack(true)
    case ClientsFor(r) => answer.Clients? && forall id :: id in answer.ids <==> LiveFor(timeout, es, id, r, e.at)
    case InterestsFor(id) =>
      answer == Resources(if Live(timeout, es, id, e.at) then SessionOf(timeout, es, id).info.interests else {})
    case Count =>
      exists ids: set<string> :: (forall id :: id in ids <==> Live(timeout, es, id, e.at)) && answer == Number(|ids|)
    case Registered(id) => answer == Ack(Live(timeout, es, id, e.at))
  }

  // The connection.

  function End(es: seq<Timed>): real
    requires es != []
  {
    es[|es| - 1].at
  }

  ghost predicate Monotone(es: seq<Timed>) {
    |es| <= 1 || (Monotone(es[..|es| - 1]) && End(es[..|es| - 1]) <= End(es))
  }

  /** From the latest call on, the registry's entry and the client's session tell the same story. */
  ghost predicate Agrees(s: State, session: Session, id: string, now: real) {
    if id in s.clients && !IsStale(s.clients[id], s.timeout, now)
    then Alive(session, s.timeout, now) && session.info == s.clients[id]
    else !Alive(session, s.timeout, now)
  }

  /** What a call does to the client map alone. */
  function NextClients(clients: Clients, timeout: real, e: Timed): Clients {
    var live := NotStale(clients, timeout, e.at);
    match e.call
    case Register(id) =>
      if id == "" then clients
      else live[id := Info(e.at, if id in live then live[id].interests else {})]
    case Heartbeat(id, rs) => if id in live then live[id := Info(e.at, rs)] else live
    case Unregister(id) => live - {id}
    case SetListener(_) => clients
    case _ => live
  }

  lemma ServeClients(s: State, e: Timed)
    ensures Serve(s, e).0.timeout == s.timeout
    ensures Serve(s, e).0.clients == NextClients(s.clients, s.timeout, e)
  {
    hide Expire, RemoveAll, AddTo, DropFrom, NotStale, StaleIds;
    ExpireClients(s, e.at);
    var t := Expire(s, e.at);
    assert t.clients == NotStale(s.clients, s.timeout, e.at);
    match e.call {
      case Unregister(id) =>
        assert Remove(t, id).clients == t.clients - {id};
      case _ =>
    }
  }

  lemma ServeAgrees(s: State, e: Timed, timeout: real, es: seq<Timed>, id: string, now: real)
    requires s.timeout == timeout && e.at <= now
    requires Agrees(s, SessionOf(timeout, es, id), id, e.at) && Agrees(s, SessionOf(timeout, es, id), id, now)
    ensures Serve(s, e).0.timeout == timeout
    ensures Agrees(Serve(s, e).0, SessionOf(timeout, es + [e], id), id, now)
  {
    ServeClients(s, e);
    hide Serve;
    assert (es + [e])[..|es|] == es;
  }

  lemma ServeKeepsIndex(s: State, e: Timed)
    requires IndexAgrees(s.clients, s.index)
    ensures IndexAgrees(Serve(s, e).0.clients, Serve(s, e).0.index)
    ensures IndexAgrees(Expire(s, e.at).clients, Expire(s, e.at).index)
  {
    hide Expire, IndexAgrees, Join, Beat, Remove;
    ExpireKeeps(s, e.at);
    match e.call {
      case Register(id) => JoinKeepsIndex(Expire(s, e.at), id, e.at);
      case Heartbeat(id, rs) => BeatKeepsIndex(Expire(s, e.at), id, rs, e.at);
      case Unregister(id) => RemoveKeepsIndex(Expire(s, e.at), id);
      case _ =>
    }
  }

  lemma EmptyAgrees(timeout: real, es: seq<Timed>, id: string, now: real)
    requires es == []
    ensures Agrees(Empty(timeout), SessionOf(timeout, es, id), id, now)
    ensures IndexAgrees(Empty(timeout).clients, Empty(timeout).index)
  {
    assert forall r, x :: x in Listed(map[], r) <==> Wants(map[], x, r);
  }

  lemma {:induction false} AfterAgrees(timeout: real, es: seq<Timed>, id: string, now: real)
    requires Monotone(es) && (es != [] ==> End(es) <= now)
    ensures After(timeout, es).timeout == timeout
    ensures Agrees(After(timeout, es), SessionOf(timeout, es, id), id, now)
    ensures IndexAgrees(After(timeout, es).clients, After(timeout, es).index)
  {
    hide Serve, Agrees, IndexAgrees;
    if es == [] {
      EmptyAgrees(timeout, es, id, now);
    } else {
      var front, e := es[..|es| - 1], es[|es| - 1];
      AfterAgrees(timeout, front, id, e.at);
      AfterAgrees(timeout, front, id, now);
      ServeAgrees(After(timeout, front), e, timeout, front, id, now);
      ServeKeepsIndex(After(timeout, front), e);
      assert front + [e] == es;
    }
  }

  /**
   * Lazy expiry cannot be told from eager expiry: after any calls, with a monotone clock and one time per call, every
   * answer and return value is the one the history demands, although registering "" and setting a listener expire
   * nobody.
   */
  lemma LazyIsEager(timeout: real, es: seq<Timed>, e: Timed)
    requires Monotone(es + [e])
    ensures Right(timeout, es, e, Serve(After(timeout, es), e).1)
  {
    assert (es + [e])[..|es|] == es && (es != [] ==> End(es) <= e.at);
    var s := After(timeout, es);
    forall id
      ensures Agrees(s, SessionOf(timeout, es, id), id, e.at)
      ensures s.timeout == timeout && IndexAgrees(s.clients, s.index)
    {
      AfterAgrees(timeout, es, id, e.at);
    }
    assert s.timeout == timeout && IndexAgrees(s.clients, s.index) by { AfterAgrees(timeout, es, "", e.at); }
    ServeKeepsIndex(s, e);
    AnswerIsRight(s, timeout, es, e);
  }

  lemma AnswerIsRight(s: State, timeout: real, es: seq<Timed>, e: Timed)
    requires s.timeout == timeout && IndexAgrees(Expire(s, e.at).clients, Expire(s, e.at).index)
    requires forall id :: Agrees(s, SessionOf(timeout, es, id), id, e.at)
    ensures Right(timeout, es, e, Serve(s, e).1)
  {
    ExpireClients(s, e.at);
    var live := Expire(s, e.at);
    hide SessionOf, IndexAgrees, Expire;
    forall id
      ensures id in live.clients <==> Live(timeout, es, id, e.at)
      ensures id in live.clients ==> SessionOf(timeout, es, id) == Active(live.clients[id])
    {
      assert Agrees(s, SessionOf(timeout, es, id), id, e.at);
    }
    AnswerFromLive(s, live, timeout, es, e);
  }

  lemma AnswerFromLive(s: State, live: State, timeout: real, es: seq<Timed>, e: Timed)
    requires live == Expire(s, e.at) && IndexAgrees(live.clients, live.index)
    requires forall id :: id in live.clients <==> Live(timeout, es, id, e.at)
    requires forall id | id in live.clients :: SessionOf(timeout, es, id) == Active(live.clients[id])
    ensures Right(timeout, es, e, Serve(s, e).1)
  {
    hide Expire, SessionOf, IndexAgrees, Live, Remove, Join, AddTo, DropFrom;
    match e.call {
      case Heartbeat(id, rs) => assert id in live.clients <==> Live(timeout, es, id, e.at);
      case ClientsFor(r) =>
        ListedIsInterested(live, r);
        assert forall id :: id in Interested(live.clients, r) <==> LiveFor(timeout, es, id, r, e.at);
      case InterestsFor(id) => assert id in live.clients <==> Live(timeout, es, id, e.at);
      case Count =>
        var ids := live.clients.Keys;
        assert forall id :: id in ids <==> Live(timeout, es, id, e.at);
        assert |live.clients| == |ids|;
      case Registered(id) => assert id in live.clients <==> Live(timeout, es, id, e.at);
      case _ =>
    }
  }
}
