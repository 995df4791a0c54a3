/** All that clients do with one database directory over time: open it, ask the
    manager for queues, use them, close, open again. Every identifier then behaves
    as a persistent queue of its own. */
module KueueClients {
  import opened KeyCodec
  import opened QueueStore
  import opened KueueCalls
  import opened StoredKeys
  import opened Kueue
  import opened KueueManager

  // ---- One persistent queue -------------------------------------------------------------

  /** The integers are the codes of the store calls made on the way. Drop erases the
      key that the j-th Ok readNext since opening returned. */
  datatype Command =
    | Open(id: string, kind: int, min: int, max: int)
    | Send(id: string, value: Bytes, io: int)
    | Receive(id: string, timeout: Option<int>, ioGet: int, io: int)
    | Look(id: string, patience: int, io: int)
    | Drop(id: string, j: nat, io: int)
    | Empty(id: string, codes: seq<int>)
    | Shut
    | Reopen(ok: bool)

  datatype Answer = Sent(status: int) | Got(o: Outcome) | Erased(ok: bool) | Emptied(status: int)

  /** What a client of one identifier can observe: the directory is open, the
      family exists and holds `vals`, there is a queue object, it is usable. The
      rest is history: the messages gone, the positions of the messages read since
      opening, the answers. */
  datatype Slot = Slot(
    open: bool, stored: bool, known: bool, usable: bool,
    vals: seq<Bytes>, gone: seq<Bytes>, looks: seq<nat>, answers: seq<Answer>)

  function Answered(s: Slot, a: Answer): Slot {
    s.(answers := s.answers + [a])
  }

  /** The first k messages leave. */
  function Popped(s: Slot, k: nat): Slot
    requires k <= |s.vals|
  {
    s.(vals := s.vals[k..], gone := s.gone + s.vals[..k])
  }

  function Waited(timeout: Option<int>): Outcome {
    if timeout.Some? && timeout.value > 0 then Returns(TIMED_OUT, None) else Blocks
  }

  /** The specification: a FIFO queue that survives closing. A call on a queue
      object that could not be set up is answered Invalid; without an object there
      is no call. */
  function Next(s: Slot, c: Command): Slot {
    match c
    case Open(_, kind, min, max) =>
      if !s.open || s.known then s
      else
        var stored := s.stored || kind == OK;
        s.(stored := stored, known := true, usable := stored && min == OK && max == OK)
    case Send(_, value, io) =>
      if !s.known then s
      else if !s.usable then Answered(s, Sent(INVALID))
      else Answered(if io == OK then s.(vals := s.vals + [value]) else s, Sent(io))
    case Receive(_, timeout, ioGet, io) =>
      if !s.known then s
      else if !s.usable then Answered(s, Got(Returns(INVALID, None)))
      else if s.vals == [] then Answered(s, Got(Waited(timeout)))
      else
        var status := if ioGet != OK then ioGet else io;
        Answered(if status == OK then Popped(s, 1) else s,
                 Got(Returns(status, if ioGet == OK then Buffer(s.vals[0]) else None)))
    case Look(_, patience, io) =>
      if !s.known then s
      else if !s.usable then Answered(s, Got(Returns(INVALID, None)))
      else if s.vals == [] then Answered(s, Got(Waited(Some(patience))))
      else if io != OK then Answered(s, Got(Returns(io, None)))
      else Answered(s.(looks := s.looks + [|s.gone|]), Got(Returns(OK, Buffer(s.vals[0]))))
    case Drop(_, j, io) =>
      if !s.usable || j >= |s.looks| then s
      else if s.looks[j] == |s.gone| && io == OK && s.vals != [] then Answered(Popped(s, 1), Erased(true))
      else Answered(s, Erased(false))
    case Empty(_, codes) =>
      if !s.known then s
      else if !s.usable then Answered(s, Emptied(INVALID))
      else
        var k := FirstFailure(true, codes, 0, |s.vals|);
        Answered(Popped(s, k), Emptied(if k < |s.vals| then codes[k] else OK))
    case Shut => s.(open := false, known := false, usable := false, looks := [])
    case Reopen(ok) => if s.open then s else s.(open := ok)
  }

  function After(s: Slot, cs: seq<Command>): Slot {
    if cs == [] then s else Next(After(s, cs[..|cs| - 1]), cs[|cs| - 1])
  }

  predicate Concerns(c: Command, id: string) {
    c.Shut? || c.Reopen? || c.id == id
  }

  /** The commands that concern one identifier. */
  function For(cs: seq<Command>, id: string): seq<Command> {
    if cs == [] then []
    else
      var before, c := For(cs[..|cs| - 1], id), cs[|cs| - 1];
      if Concerns(c, id) then before + [c] else before
  }

  lemma OneMoreCommand(cs: seq<Command>, c: Command, id: string, s: Slot)
    ensures After(s, For(cs + [c], id)) ==
            if Concerns(c, id) then Next(After(s, For(cs, id)), c) else After(s, For(cs, id))
  {
    assert (cs + [c])[..|cs|] == cs;
    assert (For(cs, id) + [c])[..|For(cs, id)|] == For(cs, id);
  }

  /** The values a queue accepts. */
  function Accepted(s: Slot, cs: seq<Command>): seq<Bytes> {
    if cs == [] then []
    else
      var before, c := cs[..|cs| - 1], cs[|cs| - 1];
      Accepted(s, before) + if c.Send? && After(s, before).usable && c.io == OK then [c.value] else []
  }

  /** Nothing is lost, duplicated or reordered, across any number of closings. */
  lemma {:induction false} SlotIsFifo(s: Slot, cs: seq<Command>)
    requires s.usable ==> s.known
    ensures var s' := After(s, cs);
            && s'.gone + s'.vals == s.gone + s.vals + Accepted(s, cs)
            && s.gone <= s'.gone && (s'.usable ==> s'.known)
  {
    if cs == [] {
      assert s.gone + s.vals + [] == s.gone + s.vals;
    } else {
      var before, c := cs[..|cs| - 1], cs[|cs| - 1];
      SlotIsFifo(s, before);
      NextIsFifo(After(s, before), c);
    }
  }

  lemma NextIsFifo(s: Slot, c: Command)
    requires s.usable ==> s.known
    ensures var s' := Next(s, c);
            && s'.gone + s'.vals == s.gone + s.vals + (if c.Send? && s.usable && c.io == OK then [c.value] else [])
            && s.gone <= s'.gone && (s'.usable ==> s'.known)
  {
    assert forall k {:trigger s.vals[k..]} :: 0 <= k <= |s.vals| ==>
        (s.gone + s.vals[..k]) + s.vals[k..] == s.gone + s.vals;
  }

  // ---- What the objects show of it -----------------------------------------------------------

  /** The concrete state of one identifier. */
  datatype Place = Place(
    open: bool, family: Option<Family>, queue: Option<Snapshot>, valid: bool,
    keys: seq<U64>, answers: seq<Answer>)

  /** The place is in the state that the slot describes; `head` is the key of the
      oldest message, and n commands are still to come. */
  ghost predicate Shows(p: Place, s: Slot, head: U64, n: nat) {
    && n < HALF && p.open == s.open && p.answers == s.answers
    && p.family.Some? == s.stored && (!s.stored ==> s.vals == [])
    && (s.stored ==> p.family.value == Encoded(head, s.vals) && head + |s.vals| + n <= M && |s.vals| + n < HALF)
    && p.queue.Some? == s.known && (s.usable <==> s.known && p.valid)
    && (s.usable ==>
          && s.stored && p.queue.value.contents == s.vals && p.queue.value.minKey == head
          && Image(p.family.value, head, p.queue.value.maxKey, p.queue.value.count, s.vals))
    && (!s.usable ==> s.looks == []) && KeysMatch(p.keys, s, head)
  }

  /** A key handed out by readNext is the head less the messages gone since. */
  ghost predicate KeysMatch(keys: seq<U64>, s: Slot, head: U64) {
    && |keys| == |s.looks|
    && forall j :: 0 <= j < |keys| ==>
         && keys[j] == head - (|s.gone| - s.looks[j]) && s.looks[j] <= |s.gone|
         && (s.looks[j] == |s.gone| ==> s.vals != [])
  }

  /** The first k messages removed from the queue and its family. */
  ghost function Shrunk(p: Place, k: nat): Place
    requires p.queue.Some? && k <= |p.queue.value.contents|
  {
    var q := Without(p.queue.value, k);
    p.(queue := Some(q), family := Some(Encoded(q.minKey, q.contents)))
  }

  /** One message added to both. */
  ghost function Grown(p: Place, v: Bytes): Place
    requires p.queue.Some?
  {
    var q := With(p.queue.value, v);
    p.(queue := Some(q), family := Some(Encoded(q.minKey, q.contents)))
  }

  function Told(p: Place, a: Answer): Place {
    p.(answers := p.answers + [a])
  }

  lemma FewerCommands(p: Place, s: Slot, head: U64, n: nat)
    requires Shows(p, s, head, n + 1)
    ensures Shows(p, s, head, n)
  {
  }

  lemma AnswerShows(p: Place, s: Slot, head: U64, n: nat, a: Answer)
    requires Shows(p, s, head, n + 1)
    ensures Shows(Told(p, a), Answered(s, a), head, n)
  {
  }

  lemma PutShows(p: Place, s: Slot, head: U64, n: nat, v: Bytes, a: Answer)
    requires Shows(p, s, head, n + 1) && s.usable
    ensures Shows(Told(Grown(p, v), a), Answered(s.(vals := s.vals + [v]), a), head, n)
  {
    var q := p.queue.value;
    ImagePut(p.family.value, head, q.maxKey, q.count, s.vals, v);
  }

  lemma PopShows(p: Place, s: Slot, head: U64, n: nat, k: nat, a: Answer)
    requires Shows(p, s, head, n + 1) && s.usable && k <= |s.vals|
    ensures Shows(Told(Shrunk(p, k), a), Answered(Popped(s, k), a), Add64(head, k), n)
  {
    AddAdd(head, k, |s.vals| - k);
  }

  lemma LookShows(p: Place, s: Slot, head: U64, n: nat, a: Answer)
    requires Shows(p, s, head, n + 1) && s.usable && s.vals != []
    ensures Shows(Told(p.(keys := p.keys + [head]), a), Answered(s.(looks := s.looks + [|s.gone|]), a), head, n)
  {
  }

  // The five calls: what each leaves of a place shows the next state of the slot.

  lemma SendShows(p: Place, s: Slot, head: U64, n: nat, c: Command, a: Answer)
    requires Shows(p, s, head, n + 1) && c.Send? && p.queue.Some? && a == Sent(if p.valid then c.io else INVALID)
    ensures Shows(Told(if p.valid && c.io == OK then Grown(p, c.value) else p, a), Next(s, c), head, n)
  {
    if s.usable && c.io == OK {
      PutShows(p, s, head, n, c.value, a);
    } else {
      AnswerShows(p, s, head, n, a);
    }
  }

  /** The outcome of a take. */
  function Taken(p: Place, c: Command): Outcome
    requires c.Receive? && p.queue.Some?
  {
    if !p.valid then Returns(INVALID, None)
    else if p.queue.value.contents == [] then Waited(c.timeout)
    else Returns(if c.ioGet != OK then c.ioGet else c.io,
                 if c.ioGet == OK then Buffer(p.queue.value.contents[0]) else None)
  }

  /** The number of messages it removes. */
  function TakenAway(p: Place, c: Command): (k: nat)
    requires c.Receive? && p.queue.Some?
    ensures k <= |p.queue.value.contents|
  {
    if p.valid && p.queue.value.contents != [] && Taken(p, c).status == OK then 1 else 0
  }

  lemma ReceiveShows(p: Place, s: Slot, head: U64, n: nat, c: Command)
    requires Shows(p, s, head, n + 1) && c.Receive? && p.queue.Some?
    ensures var k, a := TakenAway(p, c), Got(Taken(p, c));
            Shows(Told(if k > 0 then Shrunk(p, k) else p, a), Next(s, c), Add64(head, k), n)
  {
    if TakenAway(p, c) > 0 {
      PopShows(p, s, head, n, 1, Got(Taken(p, c)));
    } else {
      AnswerShows(p, s, head, n, Got(Taken(p, c)));
    }
  }

  /** The outcome of a readNext. */
  function Seen(p: Place, c: Command): Outcome
    requires c.Look? && p.queue.Some?
  {
    if !p.valid then Returns(INVALID, None)
    else if p.queue.value.contents == [] then Waited(Some(c.patience))
    else Returns(c.io, if c.io == OK then Buffer(p.queue.value.contents[0]) else None)
  }

  /** The key it hands out, if any. */
  function SeenKey(p: Place, c: Command): seq<U64>
    requires c.Look? && p.queue.Some?
  {
    if p.valid && p.queue.value.contents != [] && c.io == OK then [p.queue.value.minKey] else []
  }

  lemma SeeingShows(p: Place, s: Slot, head: U64, n: nat, c: Command)
    requires Shows(p, s, head, n + 1) && c.Look? && p.queue.Some?
    ensures Shows(Told(p.(keys := p.keys + SeenKey(p, c)), Got(Seen(p, c))), Next(s, c), head, n)
  {
    if SeenKey(p, c) != [] {
      LookShows(p, s, head, n, Got(Seen(p, c)));
    } else {
      assert p.keys + [] == p.keys;
      AnswerShows(p, s, head, n, Got(Seen(p, c)));
    }
  }

  lemma DropShows(p: Place, s: Slot, head: U64, n: nat, c: Command, ok: bool)
    requires Shows(p, s, head, n + 1) && c.Drop? && p.queue.Some? && p.valid && c.j < |p.keys|
    requires ok <==> p.keys[c.j] == p.queue.value.minKey && c.io == OK
    ensures ok ==> p.queue.value.contents != []
    ensures Shows(Told(if ok then Shrunk(p, 1) else p, Erased(ok)), Next(s, c), if ok then Add64(head, 1) else head, n)
  {
    DropFinds(p, s, head, n + 1, c.j);
    if ok {
      PopShows(p, s, head, n, 1, Erased(ok));
    } else {
      AnswerShows(p, s, head, n, Erased(ok));
    }
  }

  /** The number of messages clear removes. */
  function ClearedAway(p: Place, c: Command): (k: nat)
    requires c.Empty? && p.queue.Some?
    ensures k <= |p.queue.value.contents|
  {
    if p.valid then FirstFailure(true, c.codes, 0, |p.queue.value.contents|) else 0
  }

  function ClearedWith(p: Place, c: Command): int
    requires c.Empty? && p.queue.Some?
  {
    if !p.valid then INVALID
    else if ClearedAway(p, c) < |p.queue.value.contents| then c.codes[ClearedAway(p, c)] else OK
  }

  lemma EmptyShows(p: Place, s: Slot, head: U64, n: nat, c: Command)
    requires Shows(p, s, head, n + 1) && c.Empty? && p.queue.Some?
    ensures var k, a := ClearedAway(p, c), Emptied(ClearedWith(p, c));
            Shows(Told(if p.valid then Shrunk(p, k) else p, a), Next(s, c), Add64(head, k), n)
  {
    if p.valid {
      PopShows(p, s, head, n, ClearedAway(p, c), Emptied(ClearedWith(p, c)));
    } else {
      AnswerShows(p, s, head, n, Emptied(INVALID));
    }
  }

  /** What get makes of a place without a queue object. */
  ghost predicate FreshPlace(p: Place, vals: seq<Bytes>, c: Command, p': Place)
    requires c.Open?
  {
    && p'.open && p'.keys == p.keys && p'.answers == p.answers && p'.queue.Some?
    && p'.family == (if p.family.None? && c.kind == OK then Some(map[]) else p.family)
    && p'.queue.value.contents == vals
    && var q := p'.queue.value;
       if p'.family.Some? && c.min == OK && c.max == OK
       then ReadBack(p'.family.value, Lookup(OK, true), Lookup(OK, true),
                     Indices(q.minKey, q.maxKey, q.count, p'.valid))
       else !p'.valid
  }

  function HeadAfter(p: Place, head: U64, p': Place): U64 {
    if p'.valid && p'.queue.Some? then p'.queue.value.minKey else if p.family.Some? then head else 0
  }

  lemma OpenShows(p: Place, s: Slot, head: U64, n: nat, c: Command, p': Place)
    requires Shows(p, s, head, n + 1) && c.Open? && s.open && !s.known && FreshPlace(p, s.vals, c, p')
    ensures Shows(p', Next(s, c), HeadAfter(p, head, p'), n)
  {
    var q, h := p'.queue.value, if p.family.Some? then head else 0;
    if p'.family.Some? {
      EncodedStores(h, s.vals);
      if c.min == OK && c.max == OK {
        ReadBackIsRebuilt(p'.family.value, h, s.vals, Lookup(OK, true), Lookup(OK, true),
                          Indices(q.minKey, q.maxKey, q.count, p'.valid));
      }
    }
  }

  lemma ShutShows(p: Place, s: Slot, head: U64, n: nat)
    requires Shows(p, s, head, n + 1)
    ensures Shows(p.(open := false, queue := None, valid := false, keys := []), Next(s, Shut), head, n)
  {
  }

  lemma ReopenShows(p: Place, s: Slot, head: U64, n: nat, ok: bool)
    requires Shows(p, s, head, n + 1) && !p.open && p.queue.None?
    ensures Shows(p.(open := ok), Next(s, Reopen(ok)), head, n)
  {
  }

  /** A key that was read is the smallest exactly if its message is still there. */
  lemma DropFinds(p: Place, s: Slot, head: U64, n: nat, j: nat)
    requires Shows(p, s, head, n) && j < |p.keys|
    ensures p.keys[j] == head <==> s.looks[j] == |s.gone|
    ensures s.looks[j] == |s.gone| ==> s.vals != []
  {
  }

  /** The key to be erased is not the next key of an empty queue. */
  ghost predicate Disciplined(p: Place, j: nat) {
    && p.queue.Some? && p.valid && j < |p.keys|
    && (p.queue.value.contents == [] ==> p.keys[j] != p.queue.value.minKey)
  }

  lemma DropIsDisciplined(p: Place, s: Slot, head: U64, n: nat, j: nat)
    requires Shows(p, s, head, n) && p.queue.Some? && p.valid && j < |p.keys|
    ensures Disciplined(p, j)
  {
    DropFinds(p, s, head, n, j);
  }

  /** A stored queue. */
  datatype Held = Held(head: U64, vals: seq<Bytes>)

  /** The families are stored queues that end at least n keys below the largest. */
  ghost predicate HoldsQueues(families: map<string, Family>, queues: map<string, Held>, n: nat) {
    && n < HALF && families.Keys == queues.Keys
    && forall id :: id in queues ==>
         && Stores(families[id], queues[id].head, queues[id].vals)
         && queues[id].head + |queues[id].vals| + n <= M && |queues[id].vals| + n < HALF
  }

  function Initial(queues: map<string, Held>, id: string): Slot {
    Slot(true, id in queues, false, false, if id in queues then queues[id].vals else [], [], [], [])
  }

  // ---- All identifiers --------------------------------------------------------------------------

  // Places, slots and heads of all identifiers are kept in infinite maps.

  function PlaceAt(places: imap<string, Place>, id: string): Place {
    if id in places then places[id] else FirstPlace(map[], id)
  }

  function SlotAt(slots: imap<string, Slot>, id: string): Slot {
    if id in slots then slots[id] else Initial(map[], id)
  }

  function HeadAt(heads: imap<string, U64>, id: string): U64 {
    if id in heads then heads[id] else 0
  }

  ghost function FirstPlaces(families: map<string, Family>): (r: imap<string, Place>)
    ensures forall k :: PlaceAt(r, k) == FirstPlace(families, k)
  {
    imap k: string :: FirstPlace(families, k)
  }

  ghost function FirstSlots(queues: map<string, Held>): (r: imap<string, Slot>)
    ensures forall k :: SlotAt(r, k) == Initial(queues, k)
  {
    imap k: string :: Initial(queues, k)
  }

  ghost function FirstHeads(queues: map<string, Held>): (r: imap<string, U64>)
    ensures forall k :: HeadAt(r, k) == FirstHead(queues, k)
  {
    imap k: string :: FirstHead(queues, k)
  }

  ghost function ShutPlaces(places: imap<string, Place>): (r: imap<string, Place>)
    ensures forall k :: PlaceAt(r, k) == ShutPlace(PlaceAt(places, k))
  {
    imap k: string :: ShutPlace(PlaceAt(places, k))
  }

  ghost function ReopenedPlaces(places: imap<string, Place>, ok: bool): (r: imap<string, Place>)
    ensures forall k :: PlaceAt(r, k) == ReopenedPlace(PlaceAt(places, k), ok)
  {
    imap k: string :: ReopenedPlace(PlaceAt(places, k), ok)
  }

  ghost function AllNext(slots: imap<string, Slot>, c: Command): (r: imap<string, Slot>)
    ensures forall k :: SlotAt(r, k) == Next(SlotAt(slots, k), c)
  {
    imap k: string :: Next(SlotAt(slots, k), c)
  }

  /** The concrete states, the slots and the heads of all identifiers. */
  datatype Ledger = Ledger(places: imap<string, Place>, slots: imap<string, Slot>, heads: imap<string, U64>)

  ghost predicate ShowsIn(g: Ledger, id: string, n: nat) {
    Shows(PlaceAt(g.places, id), SlotAt(g.slots, id), HeadAt(g.heads, id), n)
  }

  /** Every identifier is in the state its slot describes. */
  ghost predicate AllShow(g: Ledger, n: nat) {
    forall id :: ShowsIn(g, id, n)
  }

  /** A place whose queue, if usable, is a valid queue over its family. */
  ghost predicate Sane(p: Place) {
    p.valid ==>
      && p.queue.Some? && p.family.Some?
      && var q := p.queue.value; Image(p.family.value, q.minKey, q.maxKey, q.count, q.contents)
  }

  lemma ShowsAt(g: Ledger, n: nat, id: string)
    requires AllShow(g, n)
    ensures Shows(PlaceAt(g.places, id), SlotAt(g.slots, id), HeadAt(g.heads, id), n)
    ensures PlaceAt(g.places, id).queue.Some? ==> Sane(PlaceAt(g.places, id))
  {
    assert ShowsIn(g, id, n);
  }

  /** One identifier has moved on. */
  function Entered(g: Ledger, id: string, p: Place, s: Slot, head: U64): Ledger {
    Ledger(g.places[id := p], g.slots[id := s], g.heads[id := head])
  }

  lemma OneMoved(g: Ledger, n: nat, id: string, p: Place, s: Slot, head: U64)
    requires n > 0 && AllShow(g, n) && Shows(p, s, head, n - 1)
    ensures AllShow(Entered(g, id, p, s, head), n - 1)
    ensures forall k :: PlaceAt(Entered(g, id, p, s, head).places, k) == if k == id then p else PlaceAt(g.places, k)
    ensures forall k :: SlotAt(Entered(g, id, p, s, head).slots, k) == if k == id then s else SlotAt(g.slots, k)
  {
    var g', m := Entered(g, id, p, s, head), n - 1;
    forall k
      ensures ShowsIn(g', k, m)
    {
      if k != id {
        assert ShowsIn(g, k, n);
        FewerCommands(PlaceAt(g.places, k), SlotAt(g.slots, k), HeadAt(g.heads, k), m);
      }
    }
  }

  function ShutPlace(p: Place): Place {
    p.(open := false, queue := None, valid := false, keys := [])
  }

  lemma AllShut(g: Ledger, n: nat)
    requires n > 0 && AllShow(g, n)
    ensures AllShow(Ledger(ShutPlaces(g.places), AllNext(g.slots, Shut), g.heads), n - 1)
  {
    var g', m := Ledger(ShutPlaces(g.places), AllNext(g.slots, Shut), g.heads), n - 1;
    forall k
      ensures ShowsIn(g', k, m)
    {
      assert ShowsIn(g, k, n);
      ShutShows(PlaceAt(g.places, k), SlotAt(g.slots, k), HeadAt(g.heads, k), m);
    }
  }

  /** Opening again: nothing happens if the directory is open. */
  function ReopenedPlace(p: Place, ok: bool): Place {
    if p.open then p else p.(open := ok)
  }

  lemma AllReopened(g: Ledger, n: nat, ok: bool)
    requires n > 0 && AllShow(g, n)
    requires forall k :: !PlaceAt(g.places, k).open ==> PlaceAt(g.places, k).queue.None?
    ensures AllShow(Ledger(ReopenedPlaces(g.places, ok), AllNext(g.slots, Reopen(ok)), g.heads), n - 1)
  {
    var g', m := Ledger(ReopenedPlaces(g.places, ok), AllNext(g.slots, Reopen(ok)), g.heads), n - 1;
    forall k
      ensures ShowsIn(g', k, m)
    {
      assert ShowsIn(g, k, n);
      var p := PlaceAt(g.places, k);
      if p.open {
        FewerCommands(p, SlotAt(g.slots, k), HeadAt(g.heads, k), m);
      } else {
        ReopenShows(p, SlotAt(g.slots, k), HeadAt(g.heads, k), m, ok);
      }
    }
  }

  ghost function FirstLedger(families: map<string, Family>, queues: map<string, Held>): Ledger {
    Ledger(FirstPlaces(families), FirstSlots(queues), FirstHeads(queues))
  }

  lemma AllInitial(families: map<string, Family>, queues: map<string, Held>, n: nat)
    requires HoldsQueues(families, queues, n)
    ensures AllShow(FirstLedger(families, queues), n)
  {
    forall k
      ensures ShowsIn(FirstLedger(families, queues), k, n)
    {
      if k in families {
        StoresIsEncoded(families[k], queues[k].head, queues[k].vals);
      }
    }
  }

  function FirstPlace(families: map<string, Family>, id: string): Place {
    Place(true, if id in families then Some(families[id]) else None, None, false, [], [])
  }

  function FirstHead(queues: map<string, Held>, id: string): U64 {
    if id in queues then queues[id].head else 0
  }

  // ---- One command ------------------------------------------------------------------------------

  /** What a call on the queue object of a place leaves of it. */
  ghost predicate Called(p: Place, c: Command, p': Place) {
    && p.queue.Some?
    && match c
       case Send(_, value, io) =>
         p' == Told(if p.valid && io == OK then Grown(p, value) else p, Sent(if p.valid then io else INVALID))
       case Receive(_, _, _, _) =>
         var k := TakenAway(p, c);
         p' == Told(if k > 0 then Shrunk(p, k) else p, Got(Taken(p, c)))
       case Look(_, _, _) => p' == Told(p.(keys := p.keys + SeenKey(p, c)), Got(Seen(p, c)))
       case Drop(_, j, io) =>
         && p.valid && j < |p.keys|
         && var ok := p.keys[j] == p.queue.value.minKey && io == OK;
            (ok ==> p.queue.value.contents != []) && p' == Told(if ok then Shrunk(p, 1) else p, Erased(ok))
       case Empty(_, _) =>
         p' == Told(if p.valid then Shrunk(p, ClearedAway(p, c)) else p, Emptied(ClearedWith(p, c)))
       case _ => false
  }

  lemma SendCalled(p: Place, s: Slot, head: U64, n: nat, c: Command, p': Place)
    requires c.Send? && Shows(p, s, head, n + 1) && Called(p, c, p')
    ensures Shows(p', Next(s, c), HeadAfter(p, head, p'), n)
  {
    SameHead(p, s, head, n + 1);
    SendShows(p, s, head, n, c, Sent(if p.valid then c.io else INVALID));
  }

  lemma ReceiveCalled(p: Place, s: Slot, head: U64, n: nat, c: Command, p': Place)
    requires c.Receive? && Shows(p, s, head, n + 1) && Called(p, c, p')
    ensures Shows(p', Next(s, c), HeadAfter(p, head, p'), n)
  {
    SameHead(p, s, head, n + 1);
    ReceiveShows(p, s, head, n, c);
  }

  lemma LookCalled(p: Place, s: Slot, head: U64, n: nat, c: Command, p': Place)
    requires c.Look? && Shows(p, s, head, n + 1) && Called(p, c, p')
    ensures Shows(p', Next(s, c), HeadAfter(p, head, p'), n)
  {
    SameHead(p, s, head, n + 1);
    SeeingShows(p, s, head, n, c);
  }

  lemma DropCalled(p: Place, s: Slot, head: U64, n: nat, c: Command, p': Place)
    requires c.Drop? && Shows(p, s, head, n + 1) && Called(p, c, p')
    ensures Shows(p', Next(s, c), HeadAfter(p, head, p'), n)
  {
    SameHead(p, s, head, n + 1);
    DropShows(p, s, head, n, c, p.keys[c.j] == p.queue.value.minKey && c.io == OK);
  }

  lemma EmptyCalled(p: Place, s: Slot, head: U64, n: nat, c: Command, p': Place)
    requires c.Empty? && Shows(p, s, head, n + 1) && Called(p, c, p')
    ensures Shows(p', Next(s, c), HeadAfter(p, head, p'), n)
  {
    SameHead(p, s, head, n + 1);
    EmptyShows(p, s, head, n, c);
  }

  /** It shows the next state of the slot. */
  lemma CalledShows(p: Place, s: Slot, head: U64, n: nat, c: Command, p': Place)
    requires Shows(p, s, head, n + 1) && Called(p, c, p')
    ensures Shows(p', Next(s, c), HeadAfter(p, head, p'), n)
  {
    match c
    case Send(_, _, _) => SendCalled(p, s, head, n, c, p');
    case Receive(_, _, _, _) => ReceiveCalled(p, s, head, n, c, p');
    case Look(_, _, _) => LookCalled(p, s, head, n, c, p');
    case Drop(_, _, _) => DropCalled(p, s, head, n, c, p');
    case Empty(_, _) => EmptyCalled(p, s, head, n, c, p');
  }

  /** Where nothing is stored, the head does not matter; where the queue is usable,
      it is minKey. */
  lemma SameHead(p: Place, s: Slot, head: U64, n: nat)
    requires Shows(p, s, head, n)
    ensures p.queue.Some? && p.valid ==> p.queue.value.minKey == head && Add64(head, 0) == head
    ensures p.family.None? ==> Shows(p, s, 0, n)
  {
  }

  /** The ledger after a command has left p' of its place. */
  function Advanced(g: Ledger, c: Command, p': Place): Ledger
    requires !c.Shut? && !c.Reopen?
  {
    var id := c.id;
    Entered(g, id, p', Next(SlotAt(g.slots, id), c), HeadAfter(PlaceAt(g.places, id), HeadAt(g.heads, id), p'))
  }

  /** A ledger that has moved on correctly. */
  ghost predicate Moves(g: Ledger, n: nat, c: Command, p': Place, g': Ledger)
    requires n > 0 && !c.Shut? && !c.Reopen?
  {
    && AllShow(g', n - 1) && Stepped(g, c, g')
    && forall k :: PlaceAt(g'.places, k) == if k == c.id then p' else PlaceAt(g.places, k)
  }

  lemma ShowingMoves(g: Ledger, n: nat, c: Command, p': Place)
    requires n > 0 && AllShow(g, n) && !c.Shut? && !c.Reopen?
    requires var id := c.id;
             Shows(p', Next(SlotAt(g.slots, id), c), HeadAfter(PlaceAt(g.places, id), HeadAt(g.heads, id), p'), n - 1)
    ensures Moves(g, n, c, p', Advanced(g, c, p'))
  {
    var id := c.id;
    OneMoved(g, n, id, p', Next(SlotAt(g.slots, id), c), HeadAfter(PlaceAt(g.places, id), HeadAt(g.heads, id), p'));
  }

  lemma CallMoves(g: Ledger, n: nat, c: Command, p': Place)
    requires n > 0 && AllShow(g, n) && !c.Shut? && !c.Reopen? && Called(PlaceAt(g.places, c.id), c, p')
    ensures Moves(g, n, c, p', Advanced(g, c, p'))
  {
    ShowsAt(g, n, c.id);
    CalledShows(PlaceAt(g.places, c.id), SlotAt(g.slots, c.id), HeadAt(g.heads, c.id), n - 1, c, p');
    ShowingMoves(g, n, c, p');
  }

  lemma OpenMoves(g: Ledger, n: nat, c: Command, p': Place)
    requires n > 0 && AllShow(g, n) && c.Open?
    requires var p := PlaceAt(g.places, c.id);
             p.open && p.queue.None? && FreshPlace(p, SlotAt(g.slots, c.id).vals, c, p')
    ensures Moves(g, n, c, p', Advanced(g, c, p'))
  {
    ShowsAt(g, n, c.id);
    OpenShows(PlaceAt(g.places, c.id), SlotAt(g.slots, c.id), HeadAt(g.heads, c.id), n - 1, c, p');
    ShowingMoves(g, n, c, p');
  }

  lemma SkipShows(p: Place, s: Slot, head: U64, n: nat, c: Command)
    requires Shows(p, s, head, n + 1) && NoCall(p, c) && !c.Shut? && !c.Reopen?
    ensures Shows(p, Next(s, c), HeadAfter(p, head, p), n)
  {
    SameHead(p, s, head, n + 1);
    FewerCommands(p, s, HeadAfter(p, head, p), n);
  }

  lemma SkipMoves(g: Ledger, n: nat, c: Command)
    requires n > 0 && AllShow(g, n) && !c.Shut? && !c.Reopen? && NoCall(PlaceAt(g.places, c.id), c)
    ensures Moves(g, n, c, PlaceAt(g.places, c.id), Advanced(g, c, PlaceAt(g.places, c.id)))
  {
    ShowsAt(g, n, c.id);
    SkipShows(PlaceAt(g.places, c.id), SlotAt(g.slots, c.id), HeadAt(g.heads, c.id), n - 1, c);
    ShowingMoves(g, n, c, PlaceAt(g.places, c.id));
  }

  /** There is no queue object to call, or one exists already, or no such key was
      read. */
  predicate NoCall(p: Place, c: Command) {
    if c.Open? then !p.open || p.queue.Some?
    else p.queue.None? || (c.Drop? && (!p.valid || c.j >= |p.keys|))
  }

  lemma SaneAt(g: Ledger, n: nat, id: string)
    requires AllShow(g, n)
    ensures var p := PlaceAt(g.places, id);
            p.queue.Some? ==> Sane(p)
  {
    ShowsAt(g, n, id);
  }

  lemma DisciplinedAt(g: Ledger, n: nat, id: string, j: nat)
    requires AllShow(g, n)
    ensures var p := PlaceAt(g.places, id); p.queue.Some? && p.valid && j < |p.keys| ==> Disciplined(p, j)
  {
    var p, s, head := PlaceAt(g.places, id), SlotAt(g.slots, id), HeadAt(g.heads, id);
    ShowsAt(g, n, id);
    if p.queue.Some? && p.valid && j < |p.keys| {
      DropIsDisciplined(p, s, head, n, j);
    }
  }

  /** The slot of the command's identifier has moved on, and no other. */
  ghost predicate Stepped(g: Ledger, c: Command, g': Ledger) {
    forall k :: SlotAt(g'.slots, k) == if Concerns(c, k) then Next(SlotAt(g.slots, k), c) else SlotAt(g.slots, k)
  }

  // ---- The clients' side ----------------------------------------------------------------------

  /** A database directory and the manager that has it open, if any. `disk` is the
      store object last opened on it; its families are what the directory holds. */
  class Site {
    var disk: StoreImpl
    var manager: KueueManagerImpl
    var keys: map<string, seq<U64>>
    var answers: map<string, seq<Answer>>
    ghost var Repr: set<object>

    /** All objects in use are known. */
    ghost predicate Known()
      reads this, manager
    {
      disk in Repr && manager in Repr && manager.Footprint() <= Repr
    }

    ghost predicate Shaped()
      reads this`disk, this`manager, disk, manager, manager.Footprint()
    {
      manager.Valid() && (manager.store == null || manager.store == disk)
    }

    ghost function PlaceOf(id: string): Place
      reads this`disk, this`manager, this`keys, this`answers, disk, manager, manager.Footprint()
    {
      var m := manager;
      Place(
        m.IsOpen(),
        if id in disk.families then Some(disk.families[id]) else None,
        if id in m.queues then Some(m.queues[id].Snap()) else None,
        id in m.queues && m.queues[id].isValid,
        if id in keys then keys[id] else [],
        if id in answers then answers[id] else [])
    }

    /** The objects are as recorded, one identifier perhaps excepted. */
    ghost predicate PlacedBut(id: string, places: imap<string, Place>)
      reads this`disk, this`manager, this`keys, this`answers, disk, manager, manager.Footprint()
    {
      Shaped() && forall k :: k != id ==> PlaceOf(k) == PlaceAt(places, k)
    }

    ghost predicate Placed(places: imap<string, Place>)
      reads this`disk, this`manager, this`keys, this`answers, disk, manager, manager.Footprint()
    {
      Shaped() && forall k :: PlaceOf(k) == PlaceAt(places, k)
    }

    /** And every identifier is in the state its slot describes. */
    ghost predicate Tied(g: Ledger, n: nat)
      reads this`disk, this`manager, this`keys, this`answers, disk, manager, manager.Footprint()
    {
      Placed(g.places) && AllShow(g, n)
    }

    /** Opens a directory that holds queues. */
    constructor (families: map<string, Family>)
      ensures Placed(FirstPlaces(families)) && Known() && fresh(Repr)
    {
      var impl := new StoreImpl(families, true);
      disk := impl;
      manager := new KueueManagerImpl(impl);
      keys, answers := map[], map[];
      Repr := {disk, manager};
    }

    // ---- Calls on one queue object ---------------------------------------------------------

    /** Work on one queue that touches only its object and its family leaves all
        other identifiers as they were. */
    twostate lemma OthersUntouched(id: string)
      requires old(Shaped()) && id in old(manager.queues) && old(manager.IsOpen())
      requires unchanged(this) && unchanged(manager) && disk.OnlyFamily(id)
      requires forall k :: k in manager.queues && k != id ==> unchanged(manager.queues[k])
      ensures Shaped() && forall k :: k != id ==> PlaceOf(k) == old(PlaceOf(k))
    {
      forall k | k != id
        ensures PlaceOf(k) == old(PlaceOf(k))
      {
        assert k in disk.families <==> k in old(disk.families);
      }
    }

    /** A queue object in a sane place is valid if it is usable. */
    lemma SaneIsValid(id: string, p: Place)
      requires Shaped() && PlaceOf(id) == p && Sane(p) && id in manager.queues
      ensures manager.queues[id].isValid ==> manager.queues[id].Valid()
      ensures manager.IsOpen() && manager.queues[id].store == disk && disk.open
      ensures p.queue == Some(manager.queues[id].Snap()) && p.valid == manager.queues[id].isValid
    {
    }

    lemma QueueIsPlaced(id: string, places: imap<string, Place>)
      requires Placed(places)
      ensures PlaceAt(places, id).queue.Some? <==> id in manager.queues
    {
      assert PlaceOf(id) == PlaceAt(places, id);
    }

    method CallPut(c: Command, ghost places: imap<string, Place>) returns (status: int)
      requires Placed(places) && c.Send? && c.id in manager.queues && Sane(PlaceAt(places, c.id))
      modifies disk, manager.queues[c.id]
      ensures PlacedBut(c.id, places)
      ensures var p := PlaceAt(places, c.id);
              && p.queue.Some? && status == (if p.valid then c.io else INVALID)
              && PlaceOf(c.id) == if p.valid && c.io == OK then Grown(p, c.value) else p
    {
      SaneIsValid(c.id, PlaceAt(places, c.id));
      status := manager.queues[c.id].Put(c.value, c.io);
      OthersUntouched(c.id);
    }

    method CallTake(c: Command, ghost places: imap<string, Place>) returns (o: Outcome)
      requires Placed(places) && c.Receive? && c.timeout.None? && c.id in manager.queues
      requires Sane(PlaceAt(places, c.id))
      modifies disk, manager.queues[c.id]
      ensures PlacedBut(c.id, places)
      ensures var p := PlaceAt(places, c.id);
              && p.queue.Some? && o == Taken(p, c)
              && PlaceOf(c.id) == var k := TakenAway(p, c); if k > 0 then Shrunk(p, k) else p
    {
      SaneIsValid(c.id, PlaceAt(places, c.id));
      o := manager.queues[c.id].Take(c.ioGet, c.io);
      OthersUntouched(c.id);
    }

    method CallTimedTake(c: Command, ghost places: imap<string, Place>) returns (o: Outcome)
      requires Placed(places) && c.Receive? && c.timeout.Some? && c.id in manager.queues
      requires Sane(PlaceAt(places, c.id))
      modifies disk, manager.queues[c.id]
      ensures PlacedBut(c.id, places)
      ensures var p := PlaceAt(places, c.id);
              && p.queue.Some? && o == Taken(p, c)
              && PlaceOf(c.id) == var k := TakenAway(p, c); if k > 0 then Shrunk(p, k) else p
    {
      SaneIsValid(c.id, PlaceAt(places, c.id));
      o := manager.queues[c.id].TimedTake(c.timeout.value, c.ioGet, c.io);
      OthersUntouched(c.id);
    }

    method CallRead(c: Command, ghost places: imap<string, Place>) returns (o: Outcome, key: U64)
      requires Placed(places) && c.Look? && c.id in manager.queues && Sane(PlaceAt(places, c.id))
      ensures var p := PlaceAt(places, c.id);
              && p.queue.Some? && o == Seen(p, c)
              && SeenKey(p, c) == if o.Returns? && o.status == OK then [key] else []
    {
      SaneIsValid(c.id, PlaceAt(places, c.id));
      o, key := manager.queues[c.id].ReadNext(c.patience, c.io);
    }

    /** The client keeps the keys it has read. */
    method Keep(id: string, more: seq<U64>, ghost places: imap<string, Place>)
      requires Placed(places)
      modifies this`keys
      ensures PlacedBut(id, places)
      ensures var p := PlaceAt(places, id); PlaceOf(id) == p.(keys := p.keys + more)
    {
      keys := keys[id := (if id in keys then keys[id] else []) + more];
    }

    /** The key was handed out by readNext, so it is not the next key of an empty
        queue. */
    method CallErase(c: Command, ghost places: imap<string, Place>) returns (ok: bool)
      requires Placed(places) && c.Drop? && c.id in manager.queues && Sane(PlaceAt(places, c.id))
      requires Disciplined(PlaceAt(places, c.id), c.j)
      modifies disk, manager.queues[c.id]
      ensures PlacedBut(c.id, places)
      ensures var p := PlaceAt(places, c.id);
              && p.queue.Some? && p.valid && c.j < |p.keys|
              && (ok <==> p.keys[c.j] == p.queue.value.minKey && c.io == OK)
              && (ok ==> p.queue.value.contents != [])
              && PlaceOf(c.id) == if ok then Shrunk(p, 1) else p
    {
      ghost var p := PlaceAt(places, c.id);
      SaneIsValid(c.id, p);
      assert PlaceOf(c.id).keys == p.keys;
      var key := keys[c.id][c.j];
      ok := manager.queues[c.id].Erase(key, c.io);
      OthersUntouched(c.id);
    }

    method EraseAndAnswer(c: Command, ghost places: imap<string, Place>)
      requires Placed(places) && c.Drop? && c.id in manager.queues && Sane(PlaceAt(places, c.id))
      requires Disciplined(PlaceAt(places, c.id), c.j)
      modifies this`answers, disk, manager.queues[c.id]
      ensures PlacedBut(c.id, places) && Called(PlaceAt(places, c.id), c, PlaceOf(c.id))
    {
      var ok := CallErase(c, places);
      Answer(c.id, Erased(ok), places);
    }

    method CallClear(c: Command, ghost places: imap<string, Place>) returns (status: int)
      requires Placed(places) && c.Empty? && c.id in manager.queues && Sane(PlaceAt(places, c.id))
      modifies disk, manager.queues[c.id]
      ensures PlacedBut(c.id, places)
      ensures var p := PlaceAt(places, c.id);
              && p.queue.Some? && status == ClearedWith(p, c)
              && PlaceOf(c.id) == if p.valid then Shrunk(p, ClearedAway(p, c)) else p
    {
      SaneIsValid(c.id, PlaceAt(places, c.id));
      status := manager.queues[c.id].Clear(OK, c.codes);
      OthersUntouched(c.id);
    }

    /** All objects in use were in use before or are new. */
    twostate predicate Grew()
      reads this, manager
    {
      && (disk == old(disk) || fresh(disk)) && (manager == old(manager) || fresh(manager))
      && forall o :: o in manager.Footprint() ==> o in old(manager.Footprint()) || fresh(o)
    }

    /** So does the creation of a queue over its own family. */
    twostate lemma OthersUntouchedByGet(id: string)
      requires old(Shaped()) && id !in old(manager.queues) && unchanged(this) && old(manager.IsOpen())
      requires Shaped() && manager.store == old(manager.store) && disk.open
      requires id in manager.queues && manager.queues == old(manager.queues)[id := manager.queues[id]]
      requires forall k :: k in old(manager.queues) ==> unchanged(old(manager.queues)[k])
      requires disk.families == old(disk.families) || disk.families == old(disk.families)[id := map[]]
      ensures forall k :: k != id ==> PlaceOf(k) == old(PlaceOf(k))
    {
    }

    method CallGet(c: Command, ghost places: imap<string, Place>, ghost vals: seq<Bytes>)
      requires Placed(places) && c.Open? && manager.IsOpen() && c.id !in manager.queues
      modifies disk, manager`queues
      ensures PlacedBut(c.id, places) && Grew()
      ensures FreshPlace(PlaceAt(places, c.id), vals, c, PlaceOf(c.id))
    {
      assert PlaceOf(c.id) == PlaceAt(places, c.id);
      var _, queue := manager.Get(c.id, c.kind, Lookup(c.min, true), Lookup(c.max, true), vals);
      OthersUntouchedByGet(c.id);
    }

    // ---- Commands --------------------------------------------------------------------------

    method Answer(id: string, a: Answer, ghost places: imap<string, Place>)
      requires PlacedBut(id, places)
      modifies this`answers
      ensures PlacedBut(id, places) && PlaceOf(id) == Told(old(PlaceOf(id)), a)
    {
      answers := answers[id := (if id in answers then answers[id] else []) + [a]];
    }

    /** A command without effect. */
    ghost method Skip(c: Command, g: Ledger, n: nat) returns (g': Ledger)
      requires n > 0 && Tied(g, n) && !c.Shut? && !c.Reopen? && NoCall(PlaceAt(g.places, c.id), c)
      ensures Tied(g', n - 1) && Stepped(g, c, g')
    {
      SkipMoves(g, n, c);
      g' := Advanced(g, c, PlaceAt(g.places, c.id));
    }

    method DoSend(c: Command, ghost g: Ledger, ghost n: nat) returns (ghost g': Ledger)
      requires n > 0 && Tied(g, n) && c.Send? && c.id in manager.queues
      modifies this`answers, disk, manager.queues[c.id]
      ensures Tied(g', n - 1) && Stepped(g, c, g')
    {
      SaneAt(g, n, c.id);
      var status := CallPut(c, g.places);
      Answer(c.id, Sent(status), g.places);
      CallMoves(g, n, c, PlaceOf(c.id));
      g' := Advanced(g, c, PlaceOf(c.id));
    }

    method DoReceive(c: Command, ghost g: Ledger, ghost n: nat) returns (ghost g': Ledger)
      requires n > 0 && Tied(g, n) && c.Receive? && c.id in manager.queues
      modifies this`answers, disk, manager.queues[c.id]
      ensures Tied(g', n - 1) && Stepped(g, c, g')
    {
      SaneAt(g, n, c.id);
      var o;
      if c.timeout.Some? {
        o := CallTimedTake(c, g.places);
      } else {
        o := CallTake(c, g.places);
      }
      Answer(c.id, Got(o), g.places);
      CallMoves(g, n, c, PlaceOf(c.id));
      g' := Advanced(g, c, PlaceOf(c.id));
    }

    method DoLook(c: Command, ghost g: Ledger, ghost n: nat) returns (ghost g': Ledger)
      requires n > 0 && Tied(g, n) && c.Look? && c.id in manager.queues
      modifies this`keys, this`answers
      ensures Tied(g', n - 1) && Stepped(g, c, g')
    {
      SaneAt(g, n, c.id);
      var o, key := CallRead(c, g.places);
      Keep(c.id, if o.Returns? && o.status == OK then [key] else [], g.places);
      Answer(c.id, Got(o), g.places);
      CallMoves(g, n, c, PlaceOf(c.id));
      g' := Advanced(g, c, PlaceOf(c.id));
    }

    method DoDrop(c: Command, ghost g: Ledger, ghost n: nat) returns (ghost g': Ledger)
      requires n > 0 && Tied(g, n) && c.Drop? && c.id in manager.queues
      requires PlaceAt(g.places, c.id).valid && c.j < |PlaceAt(g.places, c.id).keys|
      modifies this`answers, disk, manager.queues[c.id]
      ensures Tied(g', n - 1) && Stepped(g, c, g')
    {
      SaneAt(g, n, c.id);
      DisciplinedAt(g, n, c.id, c.j);
      QueueIsPlaced(c.id, g.places);
      EraseAndAnswer(c, g.places);
      CallMoves(g, n, c, PlaceOf(c.id));
      g' := Advanced(g, c, PlaceOf(c.id));
    }

    method DoEmpty(c: Command, ghost g: Ledger, ghost n: nat) returns (ghost g': Ledger)
      requires n > 0 && Tied(g, n) && c.Empty? && c.id in manager.queues
      modifies this`answers, disk, manager.queues[c.id]
      ensures Tied(g', n - 1) && Stepped(g, c, g')
    {
      SaneAt(g, n, c.id);
      var status := CallClear(c, g.places);
      Answer(c.id, Emptied(status), g.places);
      CallMoves(g, n, c, PlaceOf(c.id));
      g' := Advanced(g, c, PlaceOf(c.id));
    }

    method DoOpen(c: Command, ghost g: Ledger, ghost n: nat) returns (ghost g': Ledger)
      requires n > 0 && Tied(g, n) && c.Open? && manager.IsOpen() && c.id !in manager.queues
      modifies disk, manager`queues
      ensures Tied(g', n - 1) && Stepped(g, c, g') && Grew()
    {
      assert PlaceOf(c.id) == PlaceAt(g.places, c.id);
      CallGet(c, g.places, SlotAt(g.slots, c.id).vals);
      OpenMoves(g, n, c, PlaceOf(c.id));
      g' := Advanced(g, c, PlaceOf(c.id));
    }

    method DoShut(ghost g: Ledger, ghost n: nat) returns (ghost g': Ledger)
      requires n > 0 && Tied(g, n)
      modifies this`keys, disk, manager
      ensures Tied(g', n - 1) && Stepped(g, Shut, g') && Grew()
    {
      AllShut(g, n);
      Unmount();
      g' := Ledger(ShutPlaces(g.places), AllNext(g.slots, Shut), g.heads);
    }

    method Unmount()
      requires Shaped()
      modifies this`keys, disk, manager
      ensures Shaped() && Grew() && forall k :: PlaceOf(k) == ShutPlace(old(PlaceOf(k)))
    {
      manager.Close();
      keys := map[];
    }

    /** A new store object and a new manager over what the directory holds. Opening
        a directory a second time while it is open fails and leaves the first
        manager alone. */
    method Mount(ok: bool)
      requires Shaped()
      modifies this`disk, this`manager
      ensures Shaped() && Grew() && forall k :: PlaceOf(k) == ReopenedPlace(old(PlaceOf(k)), ok)
    {
      if !manager.IsOpen() {
        disk := new StoreImpl(disk.families, ok);
        manager := new KueueManagerImpl(disk);
      }
    }

    method DoReopen(ok: bool, ghost g: Ledger, ghost n: nat) returns (ghost g': Ledger)
      requires n > 0 && Tied(g, n)
      modifies this`disk, this`manager
      ensures Tied(g', n - 1) && Stepped(g, Reopen(ok), g') && Grew()
    {
      ClosedHasNoQueue(g.places);
      AllReopened(g, n, ok);
      Mount(ok);
      g' := Ledger(ReopenedPlaces(g.places, ok), AllNext(g.slots, Reopen(ok)), g.heads);
    }

    lemma ClosedHasNoQueue(places: imap<string, Place>)
      requires Placed(places)
      ensures forall k :: !PlaceAt(places, k).open ==> PlaceAt(places, k).queue.None?
    {
      forall k
        ensures !PlaceAt(places, k).open ==> PlaceAt(places, k).queue.None?
      {
        assert PlaceOf(k) == PlaceAt(places, k);
      }
    }

    /** There is nothing to call. */
    predicate Idle(c: Command)
      reads this, manager, manager.store, manager.Footprint()
      requires !c.Shut? && !c.Reopen?
    {
      if c.Open? then !manager.IsOpen() || c.id in manager.queues
      else if c.Drop? then
        c.id !in manager.queues || !manager.queues[c.id].isValid || c.id !in keys || c.j >= |keys[c.id]|
      else c.id !in manager.queues
    }

    lemma IdleIsNoCall(c: Command, places: imap<string, Place>)
      requires Placed(places) && !c.Shut? && !c.Reopen?
      ensures Idle(c) <==> NoCall(PlaceAt(places, c.id), c)
    {
      assert PlaceOf(c.id) == PlaceAt(places, c.id);
    }

    /** One command on one identifier. */
    method ServeOne(c: Command, ghost g: Ledger, ghost n: nat) returns (ghost g': Ledger)
      requires n > 0 && Tied(g, n) && !c.Shut? && !c.Reopen?
      modifies this`disk, this`manager, this`keys, this`answers, disk, manager, manager.Footprint()
      ensures Tied(g', n - 1) && Stepped(g, c, g') && Grew()
    {
      IdleIsNoCall(c, g.places);
      if Idle(c) {
        g' := Skip(c, g, n);
      } else {
        match c {
          case Open(_, _, _, _) => g' := DoOpen(c, g, n);
          case Send(_, _, _) => g' := DoSend(c, g, n);
          case Receive(_, _, _, _) => g' := DoReceive(c, g, n);
          case Look(_, _, _) => g' := DoLook(c, g, n);
          case Drop(_, _, _) => g' := DoDrop(c, g, n);
          case Empty(_, _) => g' := DoEmpty(c, g, n);
        }
      }
    }

    method Serve(c: Command, ghost g: Ledger, ghost n: nat) returns (ghost g': Ledger)
      requires n > 0 && Tied(g, n)
      modifies this`disk, this`manager, this`keys, this`answers, disk, manager, manager.Footprint()
      ensures Tied(g', n - 1) && Stepped(g, c, g') && Grew()
    {
      match c {
        case Shut => g' := DoShut(g, n);
        case Reopen(ok) => g' := DoReopen(ok, g, n);
        case _ => g' := ServeOne(c, g, n);
      }
    }

    /** The ledger is right and as the first i commands make it; n are left. */
    ghost predicate Halfway(queues: map<string, Held>, cs: seq<Command>, i: nat, g: Ledger, n: nat)
      reads this, disk, manager, manager.Footprint()
    {
      Known() && i + n == |cs| && Tied(g, n) && AsExpected(g, queues, cs, i)
    }

    /** One command, with the objects in use recorded. */
    method ServeKnown(c: Command, ghost g: Ledger, ghost n: nat) returns (ghost g': Ledger)
      requires n > 0 && Known() && Tied(g, n)
      modifies this, Repr
      ensures Known() && Tied(g', n - 1) && Stepped(g, c, g') && fresh(Repr - old(Repr))
    {
      g' := Serve(c, g, n);
      Repr := Repr + {disk, manager} + manager.Footprint();
    }

    method ServeNext(cs: seq<Command>, i: nat, ghost queues: map<string, Held>, ghost g: Ledger, ghost n: nat)
      returns (ghost g': Ledger)
      requires n > 0 && Halfway(queues, cs, i, g, n)
      modifies this, Repr
      ensures Halfway(queues, cs, i + 1, g', n - 1) && fresh(Repr - old(Repr))
    {
      g' := ServeKnown(cs[i], g, n);
      ExpectedStep(g, queues, cs, i, g');
    }

    /** The last n commands. */
    method ServeFrom(cs: seq<Command>, i: nat, ghost queues: map<string, Held>, ghost g: Ledger, ghost n: nat)
      returns (ghost g': Ledger)
      requires Halfway(queues, cs, i, g, n)
      modifies this, Repr
      ensures Halfway(queues, cs, |cs|, g', 0) && fresh(Repr - old(Repr))
      decreases n
    {
      if i == |cs| {
        return g;
      }
      g' := ServeNext(cs, i, queues, g, n);
      g' := ServeFrom(cs, i + 1, queues, g', n - 1);
    }
  }

  /** What becomes of one identifier: a persistent queue of its own that sees only
      the commands for it. */
  function Expected(queues: map<string, Held>, cs: seq<Command>, id: string): Slot {
    After(Initial(queues, id), For(cs, id))
  }

  lemma ExpectedNext(queues: map<string, Held>, cs: seq<Command>, i: nat, id: string)
    requires i < |cs|
    ensures var before := Expected(queues, cs[..i], id);
            Expected(queues, cs[..i + 1], id) == if Concerns(cs[i], id) then Next(before, cs[i]) else before
  {
    assert cs[..i + 1] == cs[..i] + [cs[i]];
    OneMoreCommand(cs[..i], cs[i], id, Initial(queues, id));
  }

  /** Every slot is what the first i commands make of it. */
  ghost predicate AsExpected(g: Ledger, queues: map<string, Held>, cs: seq<Command>, i: nat) {
    i <= |cs| && forall id :: SlotAt(g.slots, id) == Expected(queues, cs[..i], id)
  }

  lemma ExpectedStep(g: Ledger, queues: map<string, Held>, cs: seq<Command>, i: nat, g': Ledger)
    requires i < |cs| && AsExpected(g, queues, cs, i) && Stepped(g, cs[i], g')
    ensures AsExpected(g', queues, cs, i + 1)
  {
    forall id
      ensures SlotAt(g'.slots, id) == Expected(queues, cs[..i + 1], id)
    {
      ExpectedNext(queues, cs, i, id);
      assert SlotAt(g.slots, id) == Expected(queues, cs[..i], id);
    }
  }

  lemma ExpectedFirst(families: map<string, Family>, queues: map<string, Held>, cs: seq<Command>)
    ensures AsExpected(FirstLedger(families, queues), queues, cs, 0)
  {
    assert cs[..0] == [];
  }

  /** Any sequence of commands on a directory that holds queues: every identifier
      ends in the state, with the contents and the answers, of an independent
      persistent queue. */
  method ServeAll(families: map<string, Family>, cs: seq<Command>, ghost queues: map<string, Held>)
    returns (site: Site, ghost g: Ledger)
    requires HoldsQueues(families, queues, |cs|)
    ensures site.Tied(g, 0)
    ensures forall id :: SlotAt(g.slots, id) == Expected(queues, cs, id)
  {
    site := new Site(families);
    g := FirstLedger(families, queues);
    AllInitial(families, queues, |cs|);
    ExpectedFirst(families, queues, cs);
    assert g.places == FirstPlaces(families);
    g := site.ServeFrom(cs, 0, queues, g, |cs|);
    ExpectedLast(g, queues, cs);
  }

  lemma ExpectedLast(g: Ledger, queues: map<string, Held>, cs: seq<Command>)
    requires AsExpected(g, queues, cs, |cs|)
    ensures forall id :: SlotAt(g.slots, id) == Expected(queues, cs, id)
  {
    assert cs[..|cs|] == cs;
  }
}
