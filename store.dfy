/**
 * The conversation stores of app/memory/store.py as objects that update their
 * tables in place. Each method is proved to leave the object in the state the
 * matching function of StoreSpec describes, and to return what it returns.
 */
module Store {
  import opened Wrappers
  import opened Schemas
  import opened StoreSpec

  /** `InMemoryStore`: a table from conversation id to record. */
  class InMemoryStore {
    var table: Table

    constructor()
      ensures table == map[]
    {
      table := map[];
    }

    method Get(id: string) returns (r: Option<Conversation>)
      ensures r == Lookup(table, id)
    {
      if id in table {
        r := Some(table[id]);
      } else {
        r := None;
      }
    }

    method Save(c: Conversation) returns (ok: bool)
      modifies this
      ensures table == LocalSave(old(table), c) && ok
    {
      table := table[c.id := c];
      ok := true;
    }

    method AppendTurn(id: string, turn: Turn, now: int) returns (ok: bool)
      modifies this
      ensures table == LocalAppend(old(table), id, turn, now) && ok
    {
      if id !in table {
        ok := Save(NewConversation(id, [turn], now));
        return;
      }
      var c := table[id];
      table := table[id := c.(turns := c.turns + [turn], lastUpdated := now)];
      ok := true;
    }

    method UpdateAgentState(id: string, state: AgentState, now: int) returns (ok: bool)
      modifies this
      ensures (table, ok) == LocalUpdate(old(table), id, state, now)
    {
      if id !in table {
        return false;
      }
      var c := table[id];
      table := table[id := c.(agentState := state, lastUpdated := now)];
      ok := true;
    }

    /** The in-process table is always healthy. */
    method HealthCheck() returns (ok: bool)
      ensures ok
    {
      ok := true;
    }
  }

  /** `RedisMemoryStore`: the server's records, the expiry it sets, and its own fallback table. */
  class RemoteStore {
    var server: Table
    const ttl: int
    const fallback: InMemoryStore

    constructor(contents: Table, ttl: int)
      ensures server == contents && fallback.table == map[] && this.ttl == ttl
      ensures fresh(fallback)
    {
      server := contents;
      this.ttl := ttl;
      fallback := new InMemoryStore();
    }

    /** Both sides as one value. */
    ghost function State(): RemoteState
      reads this, fallback
    {
      RemoteState(server, fallback.table)
    }

    method Get(id: string, link: Link) returns (r: Option<Conversation>)
      ensures r == RemoteGet(State(), id, link)
    {
      match link
      case Up =>
        var key := RemoteKey(id);
        r := if key in server then Some(server[key]) else None;
      case Down =>
        r := fallback.Get(id);
      case Broken =>
        r := None;
    }

    method Save(c: Conversation, link: Link) returns (ok: bool)
      modifies this, fallback
      ensures (State(), ok) == RemoteSave(old(State()), c, link)
    {
      match link
      case Up =>
        server := server[RemoteKey(c.id) := c];
        ok := true;
      case Down =>
        ok := fallback.Save(c);
      case Broken =>
        ok := false;
    }

    /** Read, add the turn, write back; an absent record starts as an empty conversation. */
    method AppendTurn(id: string, turn: Turn, now: int, read: Link, write: Link) returns (ok: bool)
      modifies this, fallback
      ensures (State(), ok) == RemoteAppend(old(State()), id, turn, now, read, write)
    {
      var found := Get(id, read);
      var c := if found.Some? then found.value else NewConversation(id, [], now);
      c := c.(turns := c.turns + [turn], lastUpdated := now);
      ok := Save(c, write);
    }

    /** Read, replace the state, write back; False when nothing could be read. */
    method UpdateAgentState(id: string, state: AgentState, now: int, read: Link, write: Link) returns (ok: bool)
      modifies this, fallback
      ensures (State(), ok) == RemoteUpdate(old(State()), id, state, now, read, write)
    {
      var found := Get(id, read);
      if found.None? {
        return false;
      }
      var c := found.value.(agentState := state, lastUpdated := now);
      ok := Save(c, write);
    }

    /** Healthy exactly when the ping answers. */
    method HealthCheck(pingOk: bool) returns (ok: bool)
      ensures ok == pingOk
    {
      ok := pingOk;
    }
  }

  /** Which backend the facade has picked, if any. */
  datatype Active = NotInitialized | UsingLocal(local: InMemoryStore) | UsingRemote(remote: RemoteStore)

  /** `MemoryStore`: picks a backend on first use and forwards every operation to it. */
  class MemoryStore {
    var active: Active
    ghost var Repr: set<object>

    ghost predicate Valid()
      reads this, Repr
    {
      this in Repr &&
      match active
      case NotInitialized => true
      case UsingLocal(s) => s in Repr
      case UsingRemote(s) => s in Repr && s.fallback in Repr
    }

    /** The facade's contents, as StoreSpec sees them. */
    ghost function View(): FacadeState
      requires Valid()
      reads this, Repr
    {
      match active
      case NotInitialized => Unset
      case UsingLocal(s) => LocalView(s.table)
      case UsingRemote(s) => RemoteView(s.State())
    }

    constructor()
      ensures Valid() && fresh(Repr) && View() == Unset
    {
      active := NotInitialized;
      Repr := {this};
    }

    /** `initialize`: the remote store when enabled and the ping answers, the local table otherwise. */
    method Initialize(settings: Settings, ttl: int)
      requires Valid()
      modifies this
      ensures Valid() && fresh(Repr - old(Repr))
      ensures View() == StoreSpec.Initialize(settings)
    {
      if settings.useRemote && settings.pingOk {
        var s := new RemoteStore(settings.server, ttl);
        active := UsingRemote(s);
        Repr := Repr + {s, s.fallback};
      } else {
        var s := new InMemoryStore();
        active := UsingLocal(s);
        Repr := Repr + {s};
      }
    }

    method EnsureReady(settings: Settings, ttl: int)
      requires Valid()
      modifies this
      ensures Valid() && fresh(Repr - old(Repr))
      ensures !old(View()).Unset? ==> Repr == old(Repr)
      ensures View() == Ready(old(View()), settings)
    {
      if active.NotInitialized? {
        Initialize(settings, ttl);
      }
    }

    method Get(settings: Settings, ttl: int, id: string, read: Link) returns (r: Option<Conversation>)
      requires Valid()
      modifies this
      ensures Valid() && fresh(Repr - old(Repr))
      ensures !View().Unset? && (!old(View()).Unset? ==> Repr == old(Repr))
      ensures (View(), r) == FacadeGet(old(View()), settings, id, read)
    {
      EnsureReady(settings, ttl);
      match active
      case UsingLocal(s) => r := s.Get(id);
      case UsingRemote(s) => r := s.Get(id, read);
    }

    method Save(settings: Settings, ttl: int, c: Conversation, write: Link) returns (ok: bool)
      requires Valid()
      modifies Repr
      ensures Valid() && fresh(Repr - old(Repr))
      ensures !View().Unset? && (!old(View()).Unset? ==> Repr == old(Repr))
      ensures (View(), ok) == FacadeSave(old(View()), settings, c, write)
    {
      EnsureReady(settings, ttl);
      match active
      case UsingLocal(s) => ok := s.Save(c);
      case UsingRemote(s) => ok := s.Save(c, write);
    }

    method AppendTurn(settings: Settings, ttl: int, id: string, turn: Turn, now: int, read: Link, write: Link)
      returns (ok: bool)
      requires Valid()
      modifies Repr
      ensures Valid() && fresh(Repr - old(Repr))
      ensures !View().Unset? && (!old(View()).Unset? ==> Repr == old(Repr))
      ensures (View(), ok) == FacadeAppend(old(View()), settings, id, turn, now, read, write)
    {
      EnsureReady(settings, ttl);
      match active
      case UsingLocal(s) => ok := s.AppendTurn(id, turn, now);
      case UsingRemote(s) => ok := s.AppendTurn(id, turn, now, read, write);
    }

    method UpdateAgentState(settings: Settings, ttl: int, id: string, state: AgentState, now: int, read: Link, write: Link)
      returns (ok: bool)
      requires Valid()
      modifies Repr
      ensures Valid() && fresh(Repr - old(Repr))
      ensures !View().Unset? && (!old(View()).Unset? ==> Repr == old(Repr))
      ensures (View(), ok) == FacadeUpdate(old(View()), settings, id, state, now, read, write)
    {
      EnsureReady(settings, ttl);
      match active
      case UsingLocal(s) => ok := s.UpdateAgentState(id, state, now);
      case UsingRemote(s) => ok := s.UpdateAgentState(id, state, now, read, write);
    }

    /** False before initialisation; no initialisation happens here. */
    method HealthCheck(pingOk: bool) returns (ok: bool)
      requires Valid()
      ensures ok == FacadeHealth(View(), pingOk)
    {
      match active
      case NotInitialized => ok := false;
      case UsingLocal(s) => ok := s.HealthCheck();
      case UsingRemote(s) => ok := s.HealthCheck(pingOk);
    }
  }
}
