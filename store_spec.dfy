/**
 * The conversation stores of app/memory/store.py, as values: what each
 * operation returns and what the stored tables become. The classes in
 * store.dfy are proved to behave exactly like these functions.
 *
 * The remote server is a map from keys to conversation records. Whether each
 * request to it goes through is given by the caller as a `Link`. The clock is
 * a parameter `now`.
 */
module StoreSpec {
  import opened Wrappers
  import opened Schemas

  type Table = map<string, Conversation>

  /** Every record is filed under its own conversation id. */
  ghost predicate Consistent(table: Table) {
    forall id :: id in table ==> table[id].id == id
  }

  // ---------------------------------------------------------------------------
  // The in-process table
  // ---------------------------------------------------------------------------

  /** `InMemoryStore.get_conversation`. */
  function Lookup(table: Table, id: string): (r: Option<Conversation>)
    ensures r.Some? <==> id in table
    ensures r.Some? ==> r.value == table[id]
  {
    if id in table then Some(table[id]) else None
  }

  /** `InMemoryStore.save_conversation`: files the record under its id, replacing any earlier one. */
  function LocalSave(table: Table, c: Conversation): (t: Table)
    ensures Lookup(t, c.id) == Some(c)
    ensures forall other :: other != c.id ==> Lookup(t, other) == Lookup(table, other)
    ensures Consistent(table) ==> Consistent(t)
  {
    table[c.id := c]
  }

  /** The record with `turn` added at the end and the update time refreshed. */
  function Appended(c: Conversation, turn: Turn, now: int): (r: Conversation)
    ensures r.turns == c.turns + [turn] && r.lastUpdated == now
    ensures r.id == c.id && r.agentState == c.agentState && r.startedAt == c.startedAt
  {
    c.(turns := c.turns + [turn], lastUpdated := now)
  }

  /**
   * `InMemoryStore.append_turn`: an unknown id gets a new conversation whose
   * only turn is `turn`; a known one gets `turn` at the end.
   */
  function LocalAppend(table: Table, id: string, turn: Turn, now: int): (t: Table)
    ensures id in t
    ensures id !in table ==> t[id] == NewConversation(id, [turn], now)
    ensures id in table ==> t[id] == Appended(table[id], turn, now)
    ensures forall other :: other != id ==> Lookup(t, other) == Lookup(table, other)
    ensures Consistent(table) ==> Consistent(t)
  {
    if id !in table then LocalSave(table, NewConversation(id, [turn], now))
    else table[id := Appended(table[id], turn, now)]
  }

  /** The record with a new agent state and the update time refreshed. */
  function WithState(c: Conversation, state: AgentState, now: int): (r: Conversation)
    ensures r.agentState == state && r.lastUpdated == now
    ensures r.id == c.id && r.turns == c.turns && r.startedAt == c.startedAt
  {
    c.(agentState := state, lastUpdated := now)
  }

  /** `InMemoryStore.update_agent_state`: refused (False, nothing changed) for an unknown id. */
  function LocalUpdate(table: Table, id: string, state: AgentState, now: int): (r: (Table, bool))
    ensures r.1 <==> id in table
    ensures !r.1 ==> r.0 == table
    ensures r.1 ==> r.0 == table[id := WithState(table[id], state, now)]
    ensures Consistent(table) ==> Consistent(r.0)
  {
    if id !in table then (table, false)
    else (table[id := WithState(table[id], state, now)], true)
  }

  /** Saving and then reading back gives the saved record. */
  lemma LocalSaveThenGet(table: Table, c: Conversation)
    ensures Lookup(LocalSave(table, c), c.id) == Some(c)
  {
  }

  /** An id that was never saved still reads as None after saving another record. */
  lemma LocalUnsavedReadsNone(table: Table, c: Conversation, id: string)
    requires id != c.id && id !in table
    ensures Lookup(LocalSave(table, c), id) == None
  {
  }

  /** Two appends to a fresh id leave exactly those two turns, in order. */
  lemma LocalAppendTwice(table: Table, id: string, first: Turn, second: Turn, t1: int, t2: int)
    requires id !in table
    ensures var t := LocalAppend(LocalAppend(table, id, first, t1), id, second, t2);
      t[id].turns == [first, second] && t[id].startedAt == t1 && t[id].lastUpdated == t2
      && t[id].agentState == DefaultAgentState()
  {
  }

  // ---------------------------------------------------------------------------
  // The remote-backed store
  // ---------------------------------------------------------------------------

  const KeyPrefix: string := "honeypot:conversation:"

  /** `_key`: the server key of a conversation. */
  function RemoteKey(id: string): (k: string)
    ensures |k| == |KeyPrefix| + |id| && k[..|KeyPrefix|] == KeyPrefix && k[|KeyPrefix|..] == id
  {
    KeyPrefix + id
  }

  /** Different conversations never share a key. */
  lemma RemoteKeyInjective(a: string, b: string)
    requires RemoteKey(a) == RemoteKey(b)
    ensures a == b
  {
    assert a == RemoteKey(a)[|KeyPrefix|..];
  }

  /**
   * The outcome of one request to the server: it goes through, it fails with a
   * connection or timeout error, or it fails in some other way (including a
   * record that does not parse).
   */
  datatype Link = Up | Down | Broken

  /** The server's records and the embedded local table used during outages. */
  datatype RemoteState = RemoteState(server: Table, local: Table)

  /** Every server record is filed under the key of its own id, every local one under its id. */
  ghost predicate RemoteConsistent(st: RemoteState) {
    Consistent(st.local) && forall k :: k in st.server ==> k == RemoteKey(st.server[k].id)
  }

  /** `RedisMemoryStore.get_conversation`. */
  function RemoteGet(st: RemoteState, id: string, link: Link): (r: Option<Conversation>)
    ensures link == Up ==> r == Lookup(st.server, RemoteKey(id))
    ensures link == Down ==> r == Lookup(st.local, id)
    ensures link == Broken ==> r == None
  {
    match link
    case Up => Lookup(st.server, RemoteKey(id))
    case Down => Lookup(st.local, id)
    case Broken => None
  }

  /** In a consistent store, whatever a read returns carries the id that was asked for. */
  lemma RemoteGetFindsId(st: RemoteState, id: string, link: Link)
    requires RemoteConsistent(st)
    ensures RemoteGet(st, id, link).Some? ==> RemoteGet(st, id, link).value.id == id
  {
    if link == Up && RemoteKey(id) in st.server {
      RemoteKeyInjective(st.server[RemoteKey(id)].id, id);
    }
  }

  /** `RedisMemoryStore.save_conversation`: the server, else the local table on an outage, else nothing. */
  function RemoteSave(st: RemoteState, c: Conversation, link: Link): (r: (RemoteState, bool))
    ensures r.1 <==> link != Broken
    ensures link == Up ==> r.0 == RemoteState(st.server[RemoteKey(c.id) := c], st.local)
    ensures link == Down ==> r.0 == RemoteState(st.server, LocalSave(st.local, c))
    ensures link == Broken ==> r.0 == st
    ensures RemoteConsistent(st) ==> RemoteConsistent(r.0)
  {
    match link
    case Up => (RemoteState(st.server[RemoteKey(c.id) := c], st.local), true)
    case Down => (RemoteState(st.server, LocalSave(st.local, c)), true)
    case Broken => (st, false)
  }

  /**
   * `RedisMemoryStore.append_turn`: read the record (an empty conversation if
   * there is none), add the turn, write the whole record back.
   */
  function RemoteAppend(st: RemoteState, id: string, turn: Turn, now: int, read: Link, write: Link): (r: (RemoteState, bool))
    ensures r.1 <==> write != Broken
    ensures RemoteConsistent(st) ==> RemoteConsistent(r.0)
    ensures RemoteConsistent(st) ==>
      var before := RemoteGet(st, id, read).GetOr(NewConversation(id, [], now));
      var w := Appended(before, turn, now);
      && w.id == id && w.turns == before.turns + [turn]
      && (write == Up ==> r.0 == RemoteState(st.server[RemoteKey(id) := w], st.local))
      && (write == Down ==> r.0 == RemoteState(st.server, st.local[id := w]))
      && (write == Broken ==> r.0 == st)
  {
    var c := RemoteGet(st, id, read).GetOr(NewConversation(id, [], now));
    RemoteGetFindsIdInvariant(st, id, read, now);
    RemoteSave(st, Appended(c, turn, now), write)
  }

  /** The read inside a compound operation returns the record for `id` when the store is consistent. */
  lemma RemoteGetFindsIdInvariant(st: RemoteState, id: string, link: Link, now: int)
    ensures RemoteConsistent(st) ==> RemoteGet(st, id, link).GetOr(NewConversation(id, [], now)).id == id
  {
    if RemoteConsistent(st) {
      RemoteGetFindsId(st, id, link);
    }
  }

  /** `RedisMemoryStore.update_agent_state`: read, replace the state, write back; False when there is nothing to read. */
  function RemoteUpdate(st: RemoteState, id: string, state: AgentState, now: int, read: Link, write: Link): (r: (RemoteState, bool))
    ensures RemoteGet(st, id, read).None? ==> r == (st, false)
    ensures RemoteGet(st, id, read).Some? ==> (r.1 <==> write != Broken)
    ensures RemoteConsistent(st) ==> RemoteConsistent(r.0)
    ensures RemoteConsistent(st) && RemoteGet(st, id, read).Some? ==>
      var w := WithState(RemoteGet(st, id, read).value, state, now);
      && w.id == id && w.agentState == state
      && (write == Up ==> r.0 == RemoteState(st.server[RemoteKey(id) := w], st.local))
      && (write == Down ==> r.0 == RemoteState(st.server, st.local[id := w]))
      && (write == Broken ==> r.0 == st)
  {
    RemoteGetFindsIdInvariant(st, id, read, now);
    match RemoteGet(st, id, read)
    case None => (st, false)
    case Some(c) => RemoteSave(st, WithState(c, state, now), write)
  }

  /** Appending to the empty record made for an unknown id gives the conversation a local append creates. */
  lemma AppendToEmpty(id: string, turn: Turn, now: int)
    ensures Appended(NewConversation(id, [], now), turn, now) == NewConversation(id, [turn], now)
  {
    assert [] + [turn] == [turn];
  }

  /** While the server is reachable, append works on the server record alone. */
  lemma RemoteAppendWhenUp(st: RemoteState, id: string, turn: Turn, now: int)
    requires RemoteConsistent(st)
    ensures var (r, ok) := RemoteAppend(st, id, turn, now, Up, Up);
      ok && r.local == st.local
      && (RemoteKey(id) !in st.server ==> r.server == st.server[RemoteKey(id) := NewConversation(id, [turn], now)])
      && (RemoteKey(id) in st.server ==>
            r.server == st.server[RemoteKey(id) := Appended(st.server[RemoteKey(id)], turn, now)])
  {
    RemoteGetFindsId(st, id, Up);
    AppendToEmpty(id, turn, now);
  }

  /** During an outage, append is exactly the local append on the embedded table; the server is untouched. */
  lemma RemoteAppendWhenDown(st: RemoteState, id: string, turn: Turn, now: int)
    requires RemoteConsistent(st)
    ensures RemoteAppend(st, id, turn, now, Down, Down) == (RemoteState(st.server, LocalAppend(st.local, id, turn, now)), true)
  {
    RemoteGetFindsId(st, id, Down);
    AppendToEmpty(id, turn, now);
  }

  /** While the server is reachable, update rewrites the server record alone, and refuses an id the server does not hold. */
  lemma RemoteUpdateWhenUp(st: RemoteState, id: string, state: AgentState, now: int)
    requires RemoteConsistent(st)
    ensures RemoteKey(id) !in st.server ==> RemoteUpdate(st, id, state, now, Up, Up) == (st, false)
    ensures RemoteKey(id) in st.server ==>
      RemoteUpdate(st, id, state, now, Up, Up)
        == (RemoteState(st.server[RemoteKey(id) := WithState(st.server[RemoteKey(id)], state, now)], st.local), true)
  {
    RemoteGetFindsId(st, id, Up);
  }

  /**
   * A read that misses the server (an outage or a failed call) followed by a
   * write that reaches it replaces the stored history: the server record is
   * left holding only the new turn, whatever it held before.
   */
  lemma ReadFailureOverwritesServerRecord(st: RemoteState, id: string, turn: Turn, now: int, read: Link)
    requires RemoteConsistent(st)
    requires read != Up && id !in st.local
    ensures var (r, ok) := RemoteAppend(st, id, turn, now, read, Up);
      ok && r.server[RemoteKey(id)].turns == [turn]
  {
    assert RemoteGet(st, id, read) == None;
    AppendToEmpty(id, turn, now);
  }

  /** A two-turn server history is lost when the read fails and the write succeeds. */
  lemma MixedLinkLosesHistory(c: Conversation, turn: Turn, now: int)
    requires c.id == "s1" && |c.turns| == 2
    ensures var st := RemoteState(map[RemoteKey("s1") := c], map[]);
      |RemoteAppend(st, "s1", turn, now, Broken, Up).0.server[RemoteKey("s1")].turns| == 1
  {
    var st := RemoteState(map[RemoteKey("s1") := c], map[]);
    RemoteKeyInjective("s1", "s1");
    ReadFailureOverwritesServerRecord(st, "s1", turn, now, Broken);
  }

  /** During an outage, update is exactly the local update on the embedded table. */
  lemma RemoteUpdateWhenDown(st: RemoteState, id: string, state: AgentState, now: int)
    requires RemoteConsistent(st)
    ensures RemoteUpdate(st, id, state, now, Down, Down) == (var (t, ok) := LocalUpdate(st.local, id, state, now); (RemoteState(st.server, t), ok))
  {
    RemoteGetFindsId(st, id, Down);
  }

  /**
   * What an outage wrote is not copied to the server when it comes back: a
   * record saved while the server was unreachable reads as missing afterwards.
   */
  lemma NoResyncAfterOutage(st: RemoteState, c: Conversation)
    requires RemoteKey(c.id) !in st.server
    ensures var (after, ok) := RemoteSave(st, c, Down);
      ok && RemoteGet(after, c.id, Down) == Some(c) && RemoteGet(after, c.id, Up) == None
  {
  }

  /** Remote operations on one id leave the records of every other id alone, on both sides. */
  lemma RemoteAppendOthersUnchanged(st: RemoteState, id: string, other: string, turn: Turn, now: int, read: Link, write: Link)
    requires RemoteConsistent(st) && other != id
    ensures var (r, _) := RemoteAppend(st, id, turn, now, read, write);
      RemoteGet(r, other, Up) == RemoteGet(st, other, Up) && RemoteGet(r, other, Down) == RemoteGet(st, other, Down)
  {
    RemoteGetFindsId(st, id, read);
    if RemoteKey(other) == RemoteKey(id) {
      RemoteKeyInjective(other, id);
    }
  }

  // ---------------------------------------------------------------------------
  // The facade
  // ---------------------------------------------------------------------------

  /** What `initialize` consults: the remote option, whether the first ping answers, and the server's contents. */
  datatype Settings = Settings(useRemote: bool, pingOk: bool, server: Table)

  /** The facade before initialisation, or with the chosen backend's contents. */
  datatype FacadeState = Unset | LocalView(table: Table) | RemoteView(remote: RemoteState)

  /** `initialize`: the remote store if enabled and reachable, the in-process table otherwise. */
  function Initialize(settings: Settings): (f: FacadeState)
    ensures f.LocalView? <==> !settings.useRemote || !settings.pingOk
    ensures f.LocalView? ==> f.table == map[]
    ensures f.RemoteView? ==> f.remote == RemoteState(settings.server, map[])
  {
    if settings.useRemote && settings.pingOk then RemoteView(RemoteState(settings.server, map[]))
    else LocalView(map[])
  }

  /** Every operation first initialises the facade if that has not happened yet. */
  function Ready(f: FacadeState, settings: Settings): (g: FacadeState)
    ensures !g.Unset?
    ensures !f.Unset? ==> g == f
  {
    if f.Unset? then Initialize(settings) else f
  }

  /** The backend is chosen once: later settings are never consulted again. */
  lemma BackendChosenOnce(f: FacadeState, first: Settings, later: Settings)
    ensures Ready(Ready(f, first), later) == Ready(f, first)
  {
  }

  function FacadeGet(f: FacadeState, settings: Settings, id: string, read: Link): (FacadeState, Option<Conversation>) {
    var g := Ready(f, settings);
    match g
    case LocalView(t) => (g, Lookup(t, id))
    case RemoteView(st) => (g, RemoteGet(st, id, read))
    case Unset => (g, None)
  }

  function FacadeSave(f: FacadeState, settings: Settings, c: Conversation, write: Link): (FacadeState, bool) {
    var g := Ready(f, settings);
    match g
    case LocalView(t) => (LocalView(LocalSave(t, c)), true)
    case RemoteView(st) => var (s, ok) := RemoteSave(st, c, write); (RemoteView(s), ok)
    case Unset => (g, false)
  }

  function FacadeAppend(f: FacadeState, settings: Settings, id: string, turn: Turn, now: int, read: Link, write: Link): (FacadeState, bool) {
    var g := Ready(f, settings);
    match g
    case LocalView(t) => (LocalView(LocalAppend(t, id, turn, now)), true)
    case RemoteView(st) => var (s, ok) := RemoteAppend(st, id, turn, now, read, write); (RemoteView(s), ok)
    case Unset => (g, false)
  }

  function FacadeUpdate(f: FacadeState, settings: Settings, id: string, state: AgentState, now: int, read: Link, write: Link): (FacadeState, bool) {
    var g := Ready(f, settings);
    match g
    case LocalView(t) => var (s, ok) := LocalUpdate(t, id, state, now); (LocalView(s), ok)
    case RemoteView(st) => var (s, ok) := RemoteUpdate(st, id, state, now, read, write); (RemoteView(s), ok)
    case Unset => (g, false)
  }

  /** `MemoryStore.health_check`: False before initialisation, True for the local table, the ping otherwise. */
  function FacadeHealth(f: FacadeState, pingOk: bool): (ok: bool)
    ensures f.Unset? ==> !ok
    ensures f.LocalView? ==> ok
    ensures f.RemoteView? ==> ok == pingOk
  {
    match f
    case Unset => false
    case LocalView(_) => true
    case RemoteView(_) => pingOk
  }

  /** Stores are consistent in every state the facade reaches. */
  ghost predicate FacadeConsistent(f: FacadeState) {
    match f
    case Unset => true
    case LocalView(t) => Consistent(t)
    case RemoteView(st) => RemoteConsistent(st)
  }

  /** Every facade operation leaves it initialised and consistent. */
  lemma FacadeOperationsKeepConsistent(
    f: FacadeState, settings: Settings, id: string, c: Conversation, turn: Turn, state: AgentState,
    now: int, read: Link, write: Link)
    requires FacadeConsistent(f)
    requires forall k :: k in settings.server ==> k == RemoteKey(settings.server[k].id)
    ensures var g := FacadeGet(f, settings, id, read).0; !g.Unset? && FacadeConsistent(g)
    ensures var g := FacadeSave(f, settings, c, write).0; !g.Unset? && FacadeConsistent(g)
    ensures var g := FacadeAppend(f, settings, id, turn, now, read, write).0; !g.Unset? && FacadeConsistent(g)
    ensures var g := FacadeUpdate(f, settings, id, state, now, read, write).0; !g.Unset? && FacadeConsistent(g)
  {
    ReadyKeepsConsistent(f, settings);
  }

  /** Initialisation yields a consistent facade when the server's records are filed under their keys. */
  lemma ReadyKeepsConsistent(f: FacadeState, settings: Settings)
    requires FacadeConsistent(f)
    requires forall k :: k in settings.server ==> k == RemoteKey(settings.server[k].id)
    ensures FacadeConsistent(Ready(f, settings))
  {
    if f.Unset? && settings.useRemote && settings.pingOk {
      assert Ready(f, settings) == RemoteView(RemoteState(settings.server, map[]));
    }
  }

  /**
   * With the local backend, whether it was chosen because the remote store is
   * disabled or because the first ping failed, every append succeeds and
   * reading back shows the new turn last.
   */
  lemma LocalFacadeAppendThenGet(f: FacadeState, settings: Settings, id: string, turn: Turn, now: int, read: Link, write: Link, read2: Link)
    requires f.LocalView? || (f.Unset? && !(settings.useRemote && settings.pingOk))
    ensures var (g, ok) := FacadeAppend(f, settings, id, turn, now, read, write);
      && ok
      && var r := FacadeGet(g, settings, id, read2).1;
         r.Some? && |r.value.turns| >= 1 && r.value.turns[|r.value.turns| - 1] == turn
  {
  }
}
