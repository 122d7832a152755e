/** Who owns the clients of MCP servers while connects and shutdowns interleave, as a protocol of atomic steps: each
  * step is what one call does while it holds the lock on the server slots, or while it waits for a client. */
module McpClients {
  import opened Wrappers

  type Server = string
  type Client = nat
  type CallId = nat

  /** Where a connecting call stands: it found the slot empty, it has a client of its own, or it has lost: the slot was
    * taken (or gone) and it must shut its own client down before it returns the other. */
  datatype Phase = Missed | Connected(own: Client) | Lost(own: Client, existing: Option<Client>)
  datatype Call = Call(server: Server, phase: Phase)

  /** A call chooses the client it will return under the lock, and returns it later; a shutdown clears every slot. */
  datatype Event =
    | Chosen(call: CallId, server: Server, client: Client)
    | Cleared
    | Returned(call: CallId, server: Server, client: Client)

  /** `taken` holds the clients that a shutdown has taken out of their slots and not yet shut down, `shutDown` those
    * whose shutdown was called, in order. */
  datatype State = State(
    slots: map<Server, Option<Client>>,
    calls: map<CallId, Call>,
    taken: set<Client>,
    shutDown: seq<Client>,
    created: set<Client>,
    log: seq<Event>)

  datatype Action =
    | Check(call: CallId, server: Server)
    | Connect(call: CallId, client: Client)
    | ConnectFails(call: CallId)
    | Install(call: CallId)
    | ShutDownDuplicate(call: CallId)
    | ClearSlots
    | ShutDownTaken(client: Client)

  function Initial(servers: set<Server>): State {
    State(map server <- servers :: None, map[], {}, [], {}, [])
  }

  predicate Occupied(s: State, server: Server) {
    server in s.slots && s.slots[server].Some?
  }

  ghost function Installed(s: State): set<Client> {
    Clients(s.slots)
  }

  // ---------- The slots ----------

  ghost function Clients(slots: map<Server, Option<Client>>): set<Client> {
    set server | server in slots && slots[server].Some? :: slots[server].value
  }

  predicate Separate(slots: map<Server, Option<Client>>) {
    forall a <- slots, b <- slots | slots[a].Some? && slots[a] == slots[b] :: a == b
  }

  /** A client goes into its server's slot only when the slot is empty. */
  function Filled(slots: map<Server, Option<Client>>, server: Server, own: Client): map<Server, Option<Client>> {
    if server in slots && slots[server].None? then slots[server := Some(own)] else slots
  }

  function Emptied(slots: map<Server, Option<Client>>): map<Server, Option<Client>> {
    map server <- slots :: None
  }

  /** The server slots behind their lock. Each method is one critical section. */
  class ServerSlots {
    var slots: map<Server, Option<Client>>

    constructor (servers: set<Server>)
      ensures slots == Initial(servers).slots
    {
      slots := map server <- servers :: None;
    }

    /** The write lock of `connected_client`: the client the slot then holds, `None` for an unknown server. */
    method InstallOrGet(server: Server, own: Client) returns (chosen: Option<Client>)
      modifies this
      ensures slots == Filled(old(slots), server, own)
      ensures chosen == if server in slots then slots[server] else None
    {
      if server !in slots {
        return None;
      }
      if slots[server].None? {
        slots := slots[server := Some(own)];
      }
      return slots[server];
    }

    /** The write lock of `shutdown`: every client leaves its slot, once if the slots are separate. */
    method TakeClients() returns (taken: seq<Client>)
      modifies this
      ensures slots == Emptied(old(slots))
      ensures forall client :: client in taken <==> client in Clients(old(slots))
      ensures old(Separate(slots)) ==> forall i, j | 0 <= i < j < |taken| :: taken[i] != taken[j]
    {
      ghost var before := slots;
      taken := [];
      var left := slots.Keys;
      NothingTaken(before);
      hide TakenFrom;
      while left != {}
        invariant left <= before.Keys && slots.Keys == before.Keys
        invariant forall server <- before :: slots[server] == if server in left then before[server] else None
        invariant TakenFrom(before, left, taken)
        decreases |left|
      {
        var server :| server in left;
        NextTaken(before, left, taken, server);
        if slots[server].Some? {
          taken := taken + [slots[server].value];
          slots := slots[server := None];
        }
        left := left - {server};
      }
      AllTaken(before, taken);
    }
  }

  /** `taken` lists the clients of the servers not left, each once if the slots are separate. */
  ghost predicate TakenFrom(slots: map<Server, Option<Client>>, left: set<Server>, taken: seq<Client>) {
    && (forall client <- taken :: exists server <- slots.Keys - left :: slots[server] == Some(client))
    && (forall server <- slots.Keys - left | slots[server].Some? :: slots[server].value in taken)
    && (Separate(slots) ==> forall i, j | 0 <= i < j < |taken| :: taken[i] != taken[j])
  }

  lemma NothingTaken(slots: map<Server, Option<Client>>)
    ensures TakenFrom(slots, slots.Keys, [])
  {
  }

  lemma NextTaken(slots: map<Server, Option<Client>>, left: set<Server>, taken: seq<Client>, server: Server)
    requires left <= slots.Keys && server in left && TakenFrom(slots, left, taken)
    ensures slots[server].None? ==> TakenFrom(slots, left - {server}, taken)
    ensures slots[server].Some? ==> TakenFrom(slots, left - {server}, taken + [slots[server].value])
  {
    var others, more := slots.Keys - left, slots.Keys - (left - {server});
    assert more == others + {server};
    if slots[server].Some? && Separate(slots) {
      assert slots[server].value !in taken;
    }
  }

  lemma AllTaken(slots: map<Server, Option<Client>>, taken: seq<Client>)
    requires TakenFrom(slots, {}, taken)
    ensures forall client :: client in taken <==> client in Clients(slots)
    ensures Separate(slots) ==> forall i, j | 0 <= i < j < |taken| :: taken[i] != taken[j]
  {
    assert slots.Keys - {} == slots.Keys;
  }

  // ---------- Steps ----------

  ghost function Checked(s: State, call: CallId, server: Server): Option<State> {
    if call in s.calls then None
    else if server !in s.slots then Some(s)
    else if s.slots[server].Some? then
      var client := s.slots[server].value;
      Some(s.(log := s.log + [Chosen(call, server, client), Returned(call, server, client)]))
    else Some(s.(calls := s.calls[call := Call(server, Missed)]))
  }

  ghost function InstalledBy(s: State, call: CallId): Option<State> {
    if call !in s.calls || !s.calls[call].phase.Connected? then None
    else
      var server, own := s.calls[call].server, s.calls[call].phase.own;
      if server !in s.slots then Some(s.(calls := s.calls[call := Call(server, Lost(own, None))]))
      else if s.slots[server].Some? then
        var existing := s.slots[server].value;
        Some(s.(calls := s.calls[call := Call(server, Lost(own, Some(existing)))],
                log := s.log + [Chosen(call, server, existing)]))
      else
        Some(s.(slots := Filled(s.slots, server, own), calls := s.calls - {call},
                log := s.log + [Chosen(call, server, own), Returned(call, server, own)]))
  }

  ghost function DuplicateShutDown(s: State, call: CallId): Option<State> {
    if call !in s.calls || !s.calls[call].phase.Lost? then None
    else
      var lost := s.calls[call].phase;
      Some(s.(calls := s.calls - {call}, shutDown := s.shutDown + [lost.own],
              log := if lost.existing.Some? then s.log + [Returned(call, s.calls[call].server, lost.existing.value)]
                     else s.log))
  }

  /** The state after an action, `None` when the action cannot happen. */
  ghost function Apply(s: State, action: Action): Option<State> {
    match action
    case Check(call, server) => Checked(s, call, server)
    case Connect(call, client) =>
      if call !in s.calls || !s.calls[call].phase.Missed? || client in s.created then None
      else Some(s.(calls := s.calls[call := Call(s.calls[call].server, Connected(client))],
                   created := s.created + {client}))
    case ConnectFails(call) =>
      if call !in s.calls || !s.calls[call].phase.Missed? then None else Some(s.(calls := s.calls - {call}))
    case Install(call) => InstalledBy(s, call)
    case ShutDownDuplicate(call) => DuplicateShutDown(s, call)
    case ClearSlots =>
      Some(s.(slots := Emptied(s.slots), taken := s.taken + Installed(s), log := s.log + [Cleared]))
    case ShutDownTaken(client) =>
      if client !in s.taken then None
      else Some(s.(taken := s.taken - {client}, shutDown := s.shutDown + [client]))
  }

  ghost function Run(s: State, actions: seq<Action>): Option<State>
    decreases |actions|
  {
    if actions == [] then Some(s)
    else match Apply(s, actions[0])
      case None => None
      case Some(next) => Run(next, actions[1..])
  }

  // ---------- Ownership ----------

  /** The places a client can be in. */
  datatype Place = InFlight(call: CallId) | InSlot(server: Server) | Taken | ShutDownAt(i: nat)

  predicate Holds(s: State, place: Place, client: Client) {
    match place
    case InFlight(call) => call in s.calls && !s.calls[call].phase.Missed? && s.calls[call].phase.own == client
    case InSlot(server) => server in s.slots && s.slots[server] == Some(client)
    case Taken => client in s.taken
    case ShutDownAt(i) => i < |s.shutDown| && s.shutDown[i] == client
  }

  /** Every client created is in exactly one place. */
  ghost predicate OwnershipInv(s: State) {
    && (forall client <- s.created :: exists place :: Holds(s, place, client))
    && (forall place, client | Holds(s, place, client) :: client in s.created)
    && (forall p, q, client | Holds(s, p, client) && Holds(s, q, client) :: p == q)
  }

  /** Where a step puts a client that is in a given place. */
  ghost function MovedTo(s: State, action: Action, place: Place, client: Client): Place {
    match action
    case Install(call) =>
      if place == InFlight(call) && call in s.calls && s.calls[call].server in s.slots
         && s.slots[s.calls[call].server].None? then InSlot(s.calls[call].server) else place
    case ShutDownDuplicate(call) => if place == InFlight(call) then ShutDownAt(|s.shutDown|) else place
    case ClearSlots => if place.InSlot? then Taken else place
    case ShutDownTaken(c) => if place == Taken && client == c then ShutDownAt(|s.shutDown|) else place
    case _ => place
  }

  lemma ClientsMove(s: State, action: Action, place: Place, client: Client)
    requires Apply(s, action).Some? && Holds(s, place, client)
    ensures Holds(Apply(s, action).value, MovedTo(s, action, place, client), client)
  {
  }

  ghost predicate CameFrom(s: State, action: Action, place: Place, client: Client) {
    exists p :: Holds(s, p, client) && place == MovedTo(s, action, p, client)
  }

  lemma ClientsCome(s: State, action: Action, place: Place, client: Client)
    requires Apply(s, action).Some? && Holds(Apply(s, action).value, place, client)
    ensures CameFrom(s, action, place, client)
            || (action.Connect? && client == action.client && place == InFlight(action.call))
  {
    if Holds(s, place, client) && MovedTo(s, action, place, client) == place {
      return;
    }
    match action
    case Install(call) => assert Holds(s, InFlight(call), client);
    case ShutDownDuplicate(call) => assert Holds(s, InFlight(call), client);
    case ClearSlots =>
      if client !in s.taken {
        var server :| server in s.slots && s.slots[server] == Some(client);
        assert Holds(s, InSlot(server), client);
      }
    case ShutDownTaken(c) => assert Holds(s, Taken, client);
    case _ =>
  }

  lemma OwnershipKept(s: State, action: Action)
    requires OwnershipInv(s) && Apply(s, action).Some?
    ensures OwnershipInv(Apply(s, action).value)
  {
    var t := Apply(s, action).value;
    assert t.created == s.created || (action.Connect? && t.created == s.created + {action.client});
    forall client <- t.created ensures exists place :: Holds(t, place, client) {
      if client in s.created {
        var p :| Holds(s, p, client);
        ClientsMove(s, action, p, client);
      } else {
        assert Holds(t, InFlight(action.call), client);
      }
    }
    assert action.Connect? ==> action.client !in s.created && action.client in t.created;
    hide Apply, Holds;
    forall place, client | Holds(t, place, client) ensures client in t.created {
      ClientsCome(s, action, place, client);
    }
    forall p, q, client | Holds(t, p, client) && Holds(t, q, client) ensures p == q {
      ClientsCome(s, action, p, client);
      ClientsCome(s, action, q, client);
    }
  }

  // ---------- The log ----------

  /** What a log says of the slots: the clients in them, and those that a shutdown took away. */
  datatype Past = Past(current: map<Server, Client>, retired: set<Client>)

  function After(past: Past, event: Event): Past {
    match event
    case Chosen(_, server, client) => past.(current := past.current[server := client])
    case Cleared => Past(map[], past.retired + past.current.Values)
    case Returned(_, _, _) => past
  }

  /** A chosen client is the one in the slot, or it fills the empty slot and was never taken away before. */
  predicate Fits(past: Past, event: Event) {
    event.Chosen? ==>
      && event.client !in past.retired
      && (event.server in past.current ==> past.current[event.server] == event.client)
  }

  function PastOf(log: seq<Event>): Past {
    if log == [] then Past(map[], {}) else After(PastOf(log[..|log| - 1]), log[|log| - 1])
  }

  predicate Consistent(log: seq<Event>) {
    log != [] ==> Consistent(log[..|log| - 1]) && Fits(PastOf(log[..|log| - 1]), log[|log| - 1])
  }

  /** The log describes the slots, and what it says was taken away is waiting for its shutdown or has had it. */
  ghost predicate LogInv(s: State) {
    && Consistent(s.log)
    && (forall server :: Occupied(s, server) <==> server in PastOf(s.log).current)
    && (forall server <- PastOf(s.log).current :: Holds(s, InSlot(server), PastOf(s.log).current[server]))
    && (forall client <- PastOf(s.log).retired :: exists p :: Gone(p) && Holds(s, p, client))
  }

  predicate Gone(place: Place) {
    place.Taken? || place.ShutDownAt?
  }

  lemma LogGrows(log: seq<Event>, event: Event)
    ensures PastOf(log + [event]) == After(PastOf(log), event)
    ensures Consistent(log + [event]) <==> Consistent(log) && Fits(PastOf(log), event)
  {
    assert (log + [event])[..|log|] == log;
  }

  /** Clients that are gone stay gone. */
  lemma RetiredStay(s: State, action: Action)
    requires LogInv(s) && Apply(s, action).Some?
    ensures forall client <- PastOf(s.log).retired :: exists p :: Gone(p) && Holds(Apply(s, action).value, p, client)
  {
    forall client <- PastOf(s.log).retired ensures exists p :: Gone(p) && Holds(Apply(s, action).value, p, client) {
      var p :| Gone(p) && Holds(s, p, client);
      ClientsMove(s, action, p, client);
      assert Gone(MovedTo(s, action, p, client));
    }
  }

  /** The steps that append nothing and leave the slots alone. */
  lemma QuietKeepsLog(s: State, action: Action)
    requires LogInv(s) && Apply(s, action).Some?
    requires Apply(s, action).value.log == s.log && Apply(s, action).value.slots == s.slots
    ensures LogInv(Apply(s, action).value)
  {
    RetiredStay(s, action);
    var t := Apply(s, action).value;
    hide Apply;
    assert forall server :: Occupied(s, server) == Occupied(t, server);
    assert forall server, client :: Holds(s, InSlot(server), client) == Holds(t, InSlot(server), client);
  }

  lemma ChoiceFits(s: State, call: CallId, server: Server, client: Client)
    requires OwnershipInv(s) && LogInv(s)
    requires Holds(s, InSlot(server), client) || (!Occupied(s, server) && exists c :: Holds(s, InFlight(c), client))
    ensures Fits(PastOf(s.log), Chosen(call, server, client))
  {
  }

  lemma ChosenAndReturned(log: seq<Event>, call: CallId, server: Server, client: Client)
    ensures var chosen, returned := Chosen(call, server, client), Returned(call, server, client);
            && PastOf(log + [chosen, returned]) == After(PastOf(log), chosen)
            && (Consistent(log + [chosen, returned]) <==> Consistent(log) && Fits(PastOf(log), chosen))
  {
    var chosen, returned := Chosen(call, server, client), Returned(call, server, client);
    LogGrows(log, chosen);
    LogGrows(log + [chosen], returned);
    assert log + [chosen, returned] == log + [chosen] + [returned];
  }

  lemma CheckKeepsLog(s: State, call: CallId, server: Server)
    requires OwnershipInv(s) && LogInv(s) && Apply(s, Check(call, server)).Some?
    ensures LogInv(Apply(s, Check(call, server)).value)
  {
    if Occupied(s, server) {
      var client := s.slots[server].value;
      ChoiceFits(s, call, server, client);
      ChosenAndReturned(s.log, call, server, client);
      RetiredStay(s, Check(call, server));
      hide PastOf, Consistent;
    } else {
      QuietKeepsLog(s, Check(call, server));
    }
  }

  /** The log invariant after a choice, from what the choice does to slots and log. */
  lemma ChoiceKeepsLog(s: State, t: State, server: Server, client: Client)
    requires LogInv(s) && Consistent(t.log) && Fits(PastOf(s.log), Chosen(0, server, client))
    requires PastOf(t.log) == After(PastOf(s.log), Chosen(0, server, client))
    requires forall other :: other != server ==> Occupied(t, other) == Occupied(s, other)
    requires forall other, c | other != server :: Holds(t, InSlot(other), c) == Holds(s, InSlot(other), c)
    requires Holds(t, InSlot(server), client)
    requires forall c <- PastOf(s.log).retired :: exists p :: Gone(p) && Holds(t, p, c)
    ensures LogInv(t)
  {
    hide PastOf, Consistent;
  }

  lemma InstallOccupiedKeepsLog(s: State, call: CallId)
    requires OwnershipInv(s) && LogInv(s) && Apply(s, Install(call)).Some? && Occupied(s, s.calls[call].server)
    ensures LogInv(Apply(s, Install(call)).value)
  {
    var t, server := Apply(s, Install(call)).value, s.calls[call].server;
    var existing := s.slots[server].value;
    RetiredStay(s, Install(call));
    ChoiceFits(s, call, server, existing);
    LogGrows(s.log, Chosen(call, server, existing));
    assert t.slots == s.slots && t.log == s.log + [Chosen(call, server, existing)];
    hide PastOf, Consistent, LogInv, OwnershipInv, Apply;
    ChoiceKeepsLog(s, t, server, existing);
  }

  lemma InstallEmptyKeepsLog(s: State, call: CallId)
    requires OwnershipInv(s) && LogInv(s) && Apply(s, Install(call)).Some?
    requires !Occupied(s, s.calls[call].server) && s.calls[call].server in s.slots
    ensures LogInv(Apply(s, Install(call)).value)
  {
    var t, server, own := Apply(s, Install(call)).value, s.calls[call].server, s.calls[call].phase.own;
    RetiredStay(s, Install(call));
    assert Holds(s, InFlight(call), own);
    ChoiceFits(s, call, server, own);
    ChosenAndReturned(s.log, call, server, own);
    assert t.slots == s.slots[server := Some(own)];
    assert t.log == s.log + [Chosen(call, server, own), Returned(call, server, own)];
    hide PastOf, Consistent, LogInv, OwnershipInv, Apply;
    ChoiceKeepsLog(s, t, server, own);
  }

  lemma InstallKeepsLog(s: State, call: CallId)
    requires OwnershipInv(s) && LogInv(s) && Apply(s, Install(call)).Some?
    ensures LogInv(Apply(s, Install(call)).value)
  {
    hide LogInv, OwnershipInv;
    if Occupied(s, s.calls[call].server) {
      InstallOccupiedKeepsLog(s, call);
    } else if s.calls[call].server in s.slots {
      InstallEmptyKeepsLog(s, call);
    } else {
      QuietKeepsLog(s, Install(call));
    }
  }

  lemma ClearKeepsLog(s: State, t: State)
    requires LogInv(s) && Apply(s, ClearSlots) == Some(t)
    ensures LogInv(t)
  {
    RetiredStay(s, ClearSlots);
    LogGrows(s.log, Cleared);
    hide PastOf, Consistent;
    forall client <- PastOf(s.log).current.Values ensures Gone(Taken) && Holds(t, Taken, client) {
      var server :| server in PastOf(s.log).current && PastOf(s.log).current[server] == client;
      ClientsMove(s, ClearSlots, InSlot(server), client);
    }
  }

  lemma DuplicateKeepsLog(s: State, call: CallId)
    requires LogInv(s) && Apply(s, ShutDownDuplicate(call)).Some?
    ensures LogInv(Apply(s, ShutDownDuplicate(call)).value)
  {
    var existing := s.calls[call].phase.existing;
    if existing.Some? {
      LogGrows(s.log, Returned(call, s.calls[call].server, existing.value));
      RetiredStay(s, ShutDownDuplicate(call));
      hide PastOf, Consistent;
    } else {
      QuietKeepsLog(s, ShutDownDuplicate(call));
    }
  }

  // ---------- Every run ----------

  /** Where a call made its latest choice before position `n`. */
  function Choice(log: seq<Event>, call: CallId, n: nat): (r: Option<nat>)
    requires n <= |log|
    ensures r.Some? ==> r.value < n && log[r.value].Chosen? && log[r.value].call == call
  {
    if n == 0 then None
    else if log[n - 1].Chosen? && log[n - 1].call == call then Some(n - 1)
    else Choice(log, call, n - 1)
  }

  predicate Settled(log: seq<Event>, call: CallId, n: nat, server: Server, client: Client)
    requires n <= |log|
  {
    var i := Choice(log, call, n);
    i.Some? && log[i.value] == Chosen(call, server, client)
  }

  lemma {:induction false} SettledStays(log: seq<Event>, more: seq<Event>, call: CallId, n: nat)
    requires n <= |log|
    ensures Choice(log + more, call, n) == Choice(log, call, n)
  {
    if n > 0 {
      SettledStays(log, more, call, n - 1);
    }
  }

  /** Every client returned is the one its call chose last, and a call that lost has last chosen what it will return. */
  ghost predicate ChoiceInv(s: State) {
    && (forall j | 0 <= j < |s.log| && s.log[j].Returned? ::
          Settled(s.log, s.log[j].call, j, s.log[j].server, s.log[j].client))
    && (forall call <- s.calls | s.calls[call].phase.Lost? && s.calls[call].phase.existing.Some? ::
          Settled(s.log, call, |s.log|, s.calls[call].server, s.calls[call].phase.existing.value))
  }

  /** What a step appends to the log: nothing, a clearing, a return that was settled, or a choice of a call that is not
    * lost, returned at once or left to a lost call. */
  ghost predicate Appends(s: State, t: State) {
    || t.log == s.log
    || t.log == s.log + [Cleared]
    || (exists call, server, client ::
          && t.log == s.log + [Returned(call, server, client)] && Settled(s.log, call, |s.log|, server, client))
    || (exists call, server, client ::
          && (call in s.calls ==> !s.calls[call].phase.Lost?)
          && (t.log == s.log + [Chosen(call, server, client)]
              || t.log == s.log + [Chosen(call, server, client), Returned(call, server, client)]))
  }

  lemma EveryStepAppends(s: State, action: Action)
    requires ChoiceInv(s) && Apply(s, action).Some?
    ensures Appends(s, Apply(s, action).value)
  {
    var t := Apply(s, action).value;
    hide Settled;
    match action
    case Check(call, server) =>
      if Occupied(s, server) {
        var client := s.slots[server].value;
        assert t.log == s.log + [Chosen(call, server, client), Returned(call, server, client)];
      }
    case Install(call) =>
      var server, own := s.calls[call].server, s.calls[call].phase.own;
      if Occupied(s, server) {
        assert t.log == s.log + [Chosen(call, server, s.slots[server].value)];
      } else if server in s.slots {
        assert t.log == s.log + [Chosen(call, server, own), Returned(call, server, own)];
      }
    case ShutDownDuplicate(call) =>
      var existing := s.calls[call].phase.existing;
      if existing.Some? {
        assert t.log == s.log + [Returned(call, s.calls[call].server, existing.value)];
      }
    case _ =>
  }

  /** Appending does not unsettle a lost call that did not choose again. */
  lemma LostStaysSettled(s: State, t: State, call: CallId)
    requires Appends(s, t) && call in s.calls && s.calls[call].phase.Lost?
    ensures |s.log| <= |t.log| && Choice(t.log, call, |t.log|) == Choice(s.log, call, |s.log|)
    ensures t.log[..|s.log|] == s.log
  {
    SettledStays(s.log, t.log[|s.log|..], call, |s.log|);
    assert t.log == s.log + t.log[|s.log|..];
  }

  lemma ReturnsStaySettled(s: State, t: State)
    requires ChoiceInv(s) && Appends(s, t)
    ensures forall j | 0 <= j < |t.log| && t.log[j].Returned? ::
              Settled(t.log, t.log[j].call, j, t.log[j].server, t.log[j].client)
  {
    assert t.log == s.log + t.log[|s.log|..];
    forall j | 0 <= j < |t.log| && t.log[j].Returned?
      ensures Settled(t.log, t.log[j].call, j, t.log[j].server, t.log[j].client)
    {
      if j <= |s.log| {
        SettledStays(s.log, t.log[|s.log|..], t.log[j].call, j);
      }
    }
  }

  lemma LostCalls(s: State, action: Action, call: CallId)
    requires Apply(s, action).Some?
    requires var calls := Apply(s, action).value.calls; call in calls && calls[call].phase.Lost?
    ensures var t := Apply(s, action).value;
            if call in s.calls && s.calls[call].phase.Lost? then t.calls[call] == s.calls[call]
            else
              t.calls[call].phase.existing.Some? ==>
                t.log == s.log + [Chosen(call, t.calls[call].server, t.calls[call].phase.existing.value)]
  {
  }

  lemma ChoicesKept(s: State, action: Action)
    requires ChoiceInv(s) && Apply(s, action).Some?
    ensures ChoiceInv(Apply(s, action).value)
  {
    var t := Apply(s, action).value;
    EveryStepAppends(s, action);
    ReturnsStaySettled(s, t);
    forall call <- t.calls | t.calls[call].phase.Lost? && t.calls[call].phase.existing.Some?
      ensures Settled(t.log, call, |t.log|, t.calls[call].server, t.calls[call].phase.existing.value)
    {
      LostCalls(s, action, call);
      hide Apply;
      if call in s.calls && s.calls[call].phase.Lost? {
        assert Settled(s.log, call, |s.log|, t.calls[call].server, t.calls[call].phase.existing.value);
        hide Choice;
        LostStaysSettled(s, t, call);
      }
    }
  }

  ghost predicate Inv(s: State) {
    OwnershipInv(s) && LogInv(s) && ChoiceInv(s)
  }

  lemma InvHolds(s: State, action: Action)
    requires Inv(s) && Apply(s, action).Some?
    ensures Inv(Apply(s, action).value)
  {
    OwnershipKept(s, action);
    ChoicesKept(s, action);
    hide OwnershipInv, ChoiceInv, LogInv;
    match action
    case Check(call, server) => CheckKeepsLog(s, call, server);
    case Install(call) => InstallKeepsLog(s, call);
    case ShutDownDuplicate(call) => DuplicateKeepsLog(s, call);
    case ClearSlots => ClearKeepsLog(s, Apply(s, action).value);
    case _ => QuietKeepsLog(s, action);
  }

  lemma {:induction false} InvAlways(s: State, actions: seq<Action>)
    requires Inv(s) && Run(s, actions).Some?
    ensures Inv(Run(s, actions).value)
    decreases |actions|
  {
    hide Inv, Apply;
    if actions != [] {
      InvHolds(s, actions[0]);
      InvAlways(Apply(s, actions[0]).value, actions[1..]);
    }
  }

  lemma InitialInv(servers: set<Server>)
    ensures Inv(Initial(servers))
  {
  }

  /** In every interleaving of connects and shutdowns, every client created is in exactly one place: in flight in
    * one call, in one server's slot, taken out by a shutdown, or shut down exactly once. */
  lemma OwnershipIsConserved(servers: set<Server>, actions: seq<Action>)
    requires Run(Initial(servers), actions).Some?
    ensures var s := Run(Initial(servers), actions).value;
            && (forall client <- s.created :: exists place :: Holds(s, place, client))
            && (forall p, q, client | Holds(s, p, client) && Holds(s, q, client) :: p == q && client in s.created)
            && Separate(s.slots)
  {
    InitialInv(servers);
    InvAlways(Initial(servers), actions);
    var s := Run(Initial(servers), actions).value;
    forall a <- s.slots, b <- s.slots | s.slots[a].Some? && s.slots[a] == s.slots[b] ensures a == b {
      assert Holds(s, InSlot(a), s.slots[a].value) && Holds(s, InSlot(b), s.slots[a].value);
    }
  }

  lemma {:induction false} ConsistentPrefix(log: seq<Event>, n: nat)
    requires Consistent(log) && n <= |log|
    ensures Consistent(log[..n])
    decreases |log|
  {
    if n < |log| {
      ConsistentPrefix(log[..|log| - 1], n);
      assert log[..|log| - 1][..n] == log[..n];
    } else {
      assert log[..n] == log;
    }
  }

  predicate ClearedWithin(log: seq<Event>, n: nat, m: nat)
    requires m <= |log|
  {
    exists k | n <= k < m :: log[k].Cleared?
  }

  /** The client in a slot stays current until the slots are cleared, and is retired from then on. */
  lemma {:induction false} CurrentStays(log: seq<Event>, n: nat, m: nat, server: Server)
    requires Consistent(log) && n <= m <= |log| && server in PastOf(log[..n]).current
    ensures var client, past := PastOf(log[..n]).current[server], PastOf(log[..m]);
            if ClearedWithin(log, n, m) then client in past.retired
            else server in past.current && past.current[server] == client
    decreases m
  {
    if n < m {
      assert log[..m][..m - 1] == log[..m - 1];
      CurrentStays(log, n, m - 1, server);
      ConsistentPrefix(log, m);
      assert Fits(PastOf(log[..m - 1]), log[m - 1]);
      assert ClearedWithin(log, n, m) <==> ClearedWithin(log, n, m - 1) || log[m - 1].Cleared?;
    }
  }

  lemma SameChoiceIff(log: seq<Event>, i: nat, j: nat)
    requires Consistent(log) && i < j < |log|
    requires log[i].Chosen? && log[j].Chosen? && log[i].server == log[j].server
    ensures log[i].client == log[j].client <==> !ClearedWithin(log, i, j)
  {
    assert ClearedWithin(log, i, j) <==> ClearedWithin(log, i + 1, j);
    ConsistentPrefix(log, j + 1);
    assert log[..i + 1][..i] == log[..i] && log[..j + 1][..j] == log[..j];
    assert PastOf(log[..i + 1]).current[log[i].server] == log[i].client;
    assert Fits(PastOf(log[..j]), log[j]);
    CurrentStays(log, i + 1, j, log[i].server);
    hide PastOf, Consistent;
  }

  /** Two calls that choose a client for a server choose the same one exactly when no shutdown cleared the slots between
    * the two choices. */
  lemma SameClientIff(servers: set<Server>, actions: seq<Action>, i: nat, j: nat)
    requires Run(Initial(servers), actions).Some?
    requires var log := Run(Initial(servers), actions).value.log;
             i <= j < |log| && log[i].Chosen? && log[j].Chosen? && log[i].server == log[j].server
    ensures var log := Run(Initial(servers), actions).value.log;
            log[i].client == log[j].client <==> !ClearedWithin(log, i, j)
  {
    InitialInv(servers);
    InvAlways(Initial(servers), actions);
    hide Run, OwnershipInv, ChoiceInv, Consistent, PastOf;
    if i < j {
      SameChoiceIff(Run(Initial(servers), actions).value.log, i, j);
    }
  }

  /** Two returns for a server give the same client exactly when no shutdown cleared the slots between the two
    * choices that settled them; when the calls returned does not matter. */
  lemma ReturnsAgreeIff(servers: set<Server>, actions: seq<Action>, i: nat, j: nat)
    requires Run(Initial(servers), actions).Some?
    requires var log := Run(Initial(servers), actions).value.log;
             i < |log| && j < |log| && log[i].Returned? && log[j].Returned? && log[i].server == log[j].server
    ensures var log := Run(Initial(servers), actions).value.log;
            var a, b := Choice(log, log[i].call, i), Choice(log, log[j].call, j);
            && a.Some? && b.Some?
            && (log[i].client == log[j].client <==>
                !ClearedWithin(log, a.value, b.value) && !ClearedWithin(log, b.value, a.value))
  {
    InitialInv(servers);
    InvAlways(Initial(servers), actions);
    var log := Run(Initial(servers), actions).value.log;
    assert Settled(log, log[i].call, i, log[i].server, log[i].client);
    assert Settled(log, log[j].call, j, log[j].server, log[j].client);
    hide Run;
    var a, b := Choice(log, log[i].call, i).value, Choice(log, log[j].call, j).value;
    if a <= b {
      SameClientIff(servers, actions, a, b);
    } else {
      SameClientIff(servers, actions, b, a);
    }
  }

  lemma {:induction false} LogOnlyGrows(s: State, actions: seq<Action>)
    requires ChoiceInv(s) && Inv(s) && Run(s, actions).Some?
    ensures s.log <= Run(s, actions).value.log
    decreases |actions|
  {
    if actions != [] {
      EveryStepAppends(s, actions[0]);
      InvHolds(s, actions[0]);
      hide Apply, ChoiceInv;
      LogOnlyGrows(Apply(s, actions[0]).value, actions[1..]);
    }
  }

  /** Over any stretch of a run: a slot that holds a client holds the same one at the end exactly when no shutdown
    * cleared the slots in between. So nothing overwrites it, and a client once taken out never comes back. */
  lemma SlotKeptIff(servers: set<Server>, before: seq<Action>, after: seq<Action>, server: Server)
    requires Run(Initial(servers), before).Some? && Run(Run(Initial(servers), before).value, after).Some?
    requires Occupied(Run(Initial(servers), before).value, server)
    ensures var s := Run(Initial(servers), before).value;
            var t := Run(s, after).value;
            && server in t.slots && |s.log| <= |t.log|
            && (t.slots[server] == s.slots[server] <==> !ClearedWithin(t.log, |s.log|, |t.log|))
  {
    InitialInv(servers);
    InvAlways(Initial(servers), before);
    var s := Run(Initial(servers), before).value;
    InvAlways(s, after);
    SlotsRemain(s, after);
    LogOnlyGrows(s, after);
    var t := Run(s, after).value;
    hide Run, ChoiceInv;
    assert t.log[..|s.log|] == s.log && t.log[..|t.log|] == t.log;
    CurrentStays(t.log, |s.log|, |t.log|, server);
    var client := s.slots[server].value;
    assert PastOf(s.log).current[server] == client;
    if client in PastOf(t.log).retired {
      var p :| Gone(p) && Holds(t, p, client);
      assert !Holds(t, InSlot(server), client);
    }
  }

  lemma {:induction false} SlotsRemain(s: State, actions: seq<Action>)
    requires Run(s, actions).Some?
    ensures Run(s, actions).value.slots.Keys == s.slots.Keys
    decreases |actions|
  {
    if actions != [] {
      SlotsRemain(Apply(s, actions[0]).value, actions[1..]);
    }
  }

  ghost predicate Reachable(s: State) {
    exists servers, actions :: Run(Initial(servers), actions) == Some(s)
  }

  lemma {:induction false} RunAppend(s: State, actions: seq<Action>, last: Action)
    requires Run(s, actions).Some?
    ensures Run(s, actions + [last]) == Apply(Run(s, actions).value, last)
    decreases |actions|
  {
    hide Apply;
    if actions == [] {
      assert ([] + [last])[1..] == [];
      assert [] + [last] == [last];
    } else {
      RunAppend(Apply(s, actions[0]).value, actions[1..], last);
      assert (actions + [last])[1..] == actions[1..] + [last];
    }
  }

  lemma ReachNext(s: State, action: Action, t: State)
    requires Reachable(s) && Apply(s, action).Some?
    requires var u := Apply(s, action).value;
             && t.slots == u.slots && t.calls == u.calls && t.taken == u.taken && t.shutDown == u.shutDown
             && t.created == u.created && t.log == u.log
    ensures Reachable(t)
  {
    hide Apply, Run;
    var servers, actions :| Run(Initial(servers), actions) == Some(s);
    RunAppend(Initial(servers), actions, action);
  }

  /** Two calls race for server `a`; the loser has not yet shut its own client down. */
  ghost function RaceLost(): State {
    State(map["a" := Some(10)], map[1 := Call("a", Lost(11, Some(10)))], {}, [], {10, 11},
          [Chosen(0, "a", 10), Returned(0, "a", 10), Chosen(1, "a", 10)])
  }

  lemma RaceIsReachable()
    ensures Reachable(RaceLost())
  {
    hide Reachable;
    var missed, log := Call("a", Missed), [Chosen(0, "a", 10), Returned(0, "a", 10)];
    var s0 := Initial({"a"});
    var s1 := s0.(calls := map[0 := missed]);
    var s2 := s0.(calls := map[0 := missed, 1 := missed]);
    var s3 := s0.(calls := map[0 := Call("a", Connected(10)), 1 := missed], created := {10});
    var s4 := s0.(calls := map[0 := Call("a", Connected(10)), 1 := Call("a", Connected(11))], created := {10, 11});
    var s5 := State(map["a" := Some(10)], map[1 := Call("a", Connected(11))], {}, [], {10, 11}, log);
    InitialReachable({"a"});
    ReachNext(s0, Check(0, "a"), s1);
    ReachNext(s1, Check(1, "a"), s2);
    ReachNext(s2, Connect(0, 10), s3);
    ReachNext(s3, Connect(1, 11), s4);
    ReachNext(s4, Install(0), s5);
    ReachNext(s5, Install(1), RaceLost());
  }

  lemma InitialReachable(servers: set<Server>)
    ensures Reachable(Initial(servers))
  {
    assert Run(Initial(servers), []) == Some(Initial(servers));
  }

  /** Returning between the same two shutdowns is not enough: the loser of a race returns the client it chose before a
    * shutdown, after another call has returned the client installed since. */
  lemma ReturnsMayDiffer() returns (s: State)
    ensures Reachable(s) && |s.log| == 7
    ensures s.log[5] == Returned(2, "a", 12) && s.log[6] == Returned(1, "a", 10) && !ClearedWithin(s.log, 5, 6)
  {
    RaceIsReachable();
    hide Reachable;
    var lost := RaceLost();
    var s1 := lost.(slots := map["a" := None], taken := {10}, log := lost.log + [Cleared]);
    var s2 := s1.(calls := lost.calls[2 := Call("a", Missed)]);
    var s3 := s1.(calls := lost.calls[2 := Call("a", Connected(12))], created := {10, 11, 12});
    var s4 := s3.(slots := map["a" := Some(12)], calls := lost.calls,
                  log := s1.log + [Chosen(2, "a", 12), Returned(2, "a", 12)]);
    s := s4.(calls := map[], shutDown := [11], log := s4.log + [Returned(1, "a", 10)]);
    assert Installed(lost) == {10} by {
      assert Occupied(lost, "a") && lost.slots["a"].value == 10;
    }
    ReachNext(lost, ClearSlots, s1);
    ReachNext(s1, Check(2, "a"), s2);
    ReachNext(s2, Connect(2, 12), s3);
    ReachNext(s3, Install(2), s4);
    ReachNext(s4, ShutDownDuplicate(1), s);
  }
}
