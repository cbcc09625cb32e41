/** The clients that poll the collector for fresh tokens, one per GlideinSet (collector_client.go). */
module CollectorClients {
  import opened GlideinSets
  import opened ManagerRegistry

  class Client {
    const slot: string
    var handler: Handler
    var ticking: bool
    var loopAlive: bool
    ghost var sent: nat

    constructor (slot: string, h: Handler)
      ensures this.slot == slot && handler == h && !ticking && !loopAlive && sent == 0
    {
      this.slot := slot;
      handler, ticking, loopAlive, sent := h, false, false, 0;
    }

    method StartPolling()
      modifies this`ticking, this`loopAlive
      ensures ticking && loopAlive == (old(loopAlive) || !old(ticking))
    {
      if ticking {
        return;
      }
      ticking, loopAlive := true, true;
    }

    /** The send completes only if the loop is there to receive; the loop then ends. */
    method StopPolling()
      requires loopAlive
      modifies this`loopAlive, this`sent
      ensures !loopAlive && sent == old(sent) + 1
    {
      loopAlive := false;
      sent := sent + 1;
    }
  }

  method NewPollingClient(slot: string, h: Handler) returns (c: Client)
    ensures fresh(c) && c.slot == slot && c.handler == h && c.ticking && c.loopAlive && c.sent == 0
  {
    c := new Client(slot, h);
    c.StartPolling();
  }

  class Clients {
    var active: map<string, Client>
    ghost var made: set<Client>
    ghost var content: map<string, Handler>

    predicate Listed(c: Client)
      reads this
    {
      c.slot in active && active[c.slot] == c
    }

    /** Live loops and registered clients are the same thing, and nobody was stopped twice. */
    ghost predicate Good(c: Client)
      reads this, c
    {
      && (c.loopAlive <==> Listed(c))
      && c.ticking
      && c.sent == if Listed(c) then 0 else 1
    }

    ghost predicate Valid()
      reads this, made
    {
      && content.Keys == active.Keys
      && (forall n :: n in active ==> active[n] in made && active[n].slot == n && content[n] == active[n].handler)
      && (forall c :: c in made ==> Good(c))
    }

    constructor ()
      ensures Valid() && content == map[] && made == {}
    {
      active, made, content := map[], {}, map[];
    }

    /** Register a new client, or hand the latest handler to the one that is there. */
    method Add(h: Handler)
      requires Valid()
      modifies this, made
      ensures Valid() && old(made) <= made && fresh(made - old(made))
      ensures content == old(content)[Slot(h.resource) := h]
      ensures forall n :: n in old(active) ==> n in active && active[n] == old(active[n])
      ensures Slot(h.resource) in old(active) ==> made == old(made)
    {
      var slot := Slot(h.resource);
      if slot !in active {
        Register(slot, h);
      } else {
        content := content[slot := h];
        active[slot].handler := h;
      }
    }

    method Register(slot: string, h: Handler)
      requires Valid() && slot !in active
      modifies this
      ensures Valid() && old(made) <= made && fresh(made - old(made))
      ensures content == old(content)[slot := h]
      ensures forall n :: n in old(active) ==> n in active && active[n] == old(active[n])
    {
      var c := NewPollingClient(slot, h);
      Enlist(c);
    }

    method Enlist(c: Client)
      requires Valid() && c.slot !in active && c !in made
      requires c.ticking && c.loopAlive && c.sent == 0
      modifies this
      ensures Valid() && made == old(made) + {c}
      ensures active == old(active)[c.slot := c]
      ensures content == old(content)[c.slot := c.handler]
    {
      active := active[c.slot := c];
      made := made + {c};
      content := content[c.slot := c.handler];
    }

    /** Stop the loop, then forget the client. */
    method Remove(slot: string)
      requires Valid()
      modifies this, made
      ensures Valid() && made == old(made)
      ensures content == old(content) - {slot}
      ensures forall n :: n in active ==> n in old(active) && active[n] == old(active[n])
      ensures slot in old(active) ==> !old(active[slot]).loopAlive
    {
      if slot in active {
        assert Good(active[slot]);
        active[slot].StopPolling();
        active := active - {slot};
        content := content - {slot};
      }
    }

    /** One tick of a client's loop: the handler it uses is the latest one given for its name. */
    method Tick(c: Client) returns (used: Handler)
      requires Valid() && c in made && c.loopAlive
      ensures c.slot in content && used == content[c.slot]
    {
      assert Good(c);
      used := c.handler;
    }
  }
}
