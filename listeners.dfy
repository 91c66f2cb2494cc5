/** What the three watcher providers (providers/mint_provider.ts,
    providers/receive_provider.ts, providers/redeem_provider.ts) and the
    settlement scheduler (providers/settlement_provider.ts) share: the query
    that picks the games a tick handles, the registry of account-change
    subscriptions, the cursor into a record table, and the rule that turns
    the transactions of a watched address into engine calls. */
module Listeners {
  import opened Types
  import opened Chain
  import opened Pot
  import Helpers

  // ---------------------------------------------------------------------------
  // The games a tick handles
  // ---------------------------------------------------------------------------

  /** The game queries of the providers: games with `timeEnded` null, or
      games with `timeEnded` set and a positive claimable pot; in both cases
      leaving out the ids in `excluded`. */
  datatype Query = Open(excluded: set<nat>) | Claimable(excluded: set<nat>)
  {
    predicate Keeps(g: GameRow)
    {
      && g.id !in excluded
      && (if Open? then g.times.timeEnded.None? else g.times.timeEnded.Some? && g.books.claimable > 0.0)
    }
  }

  predicate DistinctIds(gs: seq<GameRow>)
  {
    forall i, j :: 0 <= i < j < |gs| ==> gs[i].id != gs[j].id
  }

  /** The rows a query returns, in table order. */
  function Select(gs: seq<GameRow>, q: Query): (r: seq<GameRow>)
    ensures forall g :: g in r <==> g in gs && q.Keeps(g)
  {
    if gs == [] then []
    else
      var last := gs[|gs| - 1];
      assert forall g :: g in gs <==> g in gs[..|gs| - 1] || g == last;
      Select(gs[..|gs| - 1], q) + (if q.Keeps(last) then [last] else [])
  }

  /** A query of a table with distinct ids returns distinct ids. */
  lemma {:induction false} SelectDistinct(gs: seq<GameRow>, q: Query)
    requires DistinctIds(gs)
    ensures DistinctIds(Select(gs, q))
  {
    if gs != [] {
      var n := |gs| - 1;
      var front := Select(gs[..n], q);
      assert DistinctIds(gs[..n]);
      SelectDistinct(gs[..n], q);
      forall i | 0 <= i < |front|
        ensures front[i].id != gs[n].id
      {
        assert front[i] in gs[..n];
        var m :| 0 <= m < n && gs[..n][m] == front[i];
        assert gs[m] == front[i];
      }
    }
  }

  // ---------------------------------------------------------------------------
  // The subscription registry
  // ---------------------------------------------------------------------------

  /** What one subscription watches: a side of a game, and the address whose
      changes fire it. */
  datatype Watch = Watch(gameId: nat, side: Side, address: Address)

  /** The two subscription handles of one game. */
  datatype Pair = Pair(over: nat, under: nat)
  {
    function Of(s: Side): nat
    {
      if s == Over then over else under
    }
  }

  /** Which address of a side a watcher subscribes to: the pot itself, or
      the pot's associated token account for the side's mint. */
  datatype AddressRule = PotAccount | TokenAccount(ata: (Address, Address) -> Address)
  {
    function Of(g: GameRow, s: Side): Address
    {
      if PotAccount? then g.keys.PotOf(s) else ata(g.keys.MintOf(s), g.keys.PotOf(s))
    }
  }

  /** A provider's `listeners` record together with the connection's open
      account-change subscriptions by handle, and the handle the connection
      hands out next. */
  datatype Subscriptions = Subscriptions(listeners: map<nat, Pair>, open: map<nat, Watch>, next: nat)
  {
    /** Every handle was handed out, a pair's two handles differ, a pair's
        open handles watch its own game and side, and every open
        subscription is held by its game's pair: no subscription is left
        behind by a replaced pair. */
    ghost predicate Consistent()
    {
      && (forall id :: id in listeners ==>
            listeners[id].over < next && listeners[id].under < next && listeners[id].over != listeners[id].under)
      && (forall h :: h in open ==> (
            && h < next
            && open[h].gameId in listeners
            && listeners[open[h].gameId].Of(open[h].side) == h))
      && (forall id, s: Side :: id in listeners && listeners[id].Of(s) in open ==>
            open[listeners[id].Of(s)].gameId == id && open[listeners[id].Of(s)].side == s)
    }

    /** The game's pair holds an open subscription for `side` on `address`. */
    ghost predicate Watching(id: nat, side: Side, address: Address)
    {
      id in listeners && listeners[id].Of(side) in open && open[listeners[id].Of(side)] == Watch(id, side, address)
    }

    /** The open subscriptions once both of the game's old ones are removed. */
    function Unsubscribed(id: nat): map<nat, Watch>
    {
      if id in listeners then open - {listeners[id].over, listeners[id].under} else open
    }

    /** The game gets a new pair, over first, after both subscriptions of
        any pair it already had are removed. */
    function Registered(id: nat, over: Address, under: Address): Subscriptions
    {
      Subscriptions(listeners[id := Pair(next, next + 1)],
                    Unsubscribed(id)[next := Watch(id, Over, over)][next + 1 := Watch(id, Under, under)],
                    next + 2)
    }

    /** Shutdown: every pair's subscriptions removed, the record kept. */
    function Closed(): (r: Subscriptions)
    {
      Subscriptions(listeners, map[], next)
    }
  }

  /** What a replacement keeps of the open subscriptions is open already and
      watches some other game. */
  lemma UnsubscribedKeeps(st: Subscriptions, id: nat)
    requires st.Consistent()
    ensures forall h :: h in st.Unsubscribed(id) ==>
      h in st.open && st.Unsubscribed(id)[h] == st.open[h] && st.open[h].gameId != id
  {
    forall h | h in st.Unsubscribed(id)
      ensures st.open[h].gameId != id
    {
      assert st.listeners[st.open[h].gameId].Of(st.open[h].side) == h;
    }
  }

  /** Replacing a game's pair keeps the registry consistent and leaves the
      game with exactly its two new subscriptions. */
  lemma {:induction false} RegisterConsistent(st: Subscriptions, id: nat, over: Address, under: Address)
    requires st.Consistent()
    ensures st.Registered(id, over, under).Consistent()
    ensures st.Registered(id, over, under).Watching(id, Over, over)
    ensures st.Registered(id, over, under).Watching(id, Under, under)
    ensures forall h :: h in st.Registered(id, over, under).open && st.Registered(id, over, under).open[h].gameId == id ==>
      h == st.next || h == st.next + 1
  {
    var r := st.Registered(id, over, under);
    var kept := st.Unsubscribed(id);
    UnsubscribedKeeps(st, id);
    forall h | h in r.open
      ensures h < r.next && r.open[h].gameId in r.listeners && r.listeners[r.open[h].gameId].Of(r.open[h].side) == h
    {
      if h != st.next && h != st.next + 1 {
        assert h in kept;
      }
    }
    forall k, s: Side | k in r.listeners && r.listeners[k].Of(s) in r.open
      ensures r.open[r.listeners[k].Of(s)].gameId == k && r.open[r.listeners[k].Of(s)].side == s
    {
      if k != id {
        assert r.listeners[k] == st.listeners[k];
        assert st.listeners[k].Of(s) in kept;
      }
    }
  }

  /** Replacing a game's pair disturbs no other game's subscriptions. */
  lemma RegisterKeepsOthers(st: Subscriptions, id: nat, over: Address, under: Address, k: nat, s: Side, a: Address)
    requires st.Consistent() && k != id && st.Watching(k, s, a)
    ensures st.Registered(id, over, under).Watching(k, s, a)
  {
    var h := st.listeners[k].Of(s);
    if id in st.listeners {
      assert st.listeners[id].Of(Over) in st.open ==> st.open[st.listeners[id].Of(Over)].gameId == id;
      assert st.listeners[id].Of(Under) in st.open ==> st.open[st.listeners[id].Of(Under)].gameId == id;
    }
    assert h in st.Unsubscribed(id);
  }

  /** The registrations of one tick, in query order. */
  function RegisteredAll(st: Subscriptions, games: seq<GameRow>, rule: AddressRule): Subscriptions
  {
    if games == [] then st
    else
      var g := games[|games| - 1];
      RegisteredAll(st, games[..|games| - 1], rule).Registered(g.id, rule.Of(g, Over), rule.Of(g, Under))
  }

  /** Every tick keeps the registry consistent. */
  lemma {:induction false} RegisteredAllConsistent(st: Subscriptions, games: seq<GameRow>, rule: AddressRule)
    requires st.Consistent()
    ensures RegisteredAll(st, games, rule).Consistent()
  {
    if games != [] {
      var g := games[|games| - 1];
      RegisteredAllConsistent(st, games[..|games| - 1], rule);
      RegisterConsistent(RegisteredAll(st, games[..|games| - 1], rule), g.id, rule.Of(g, Over), rule.Of(g, Under));
    }
  }

  /** A tick adds a pair for each of its games and replaces no pair of a
      game outside it. */
  lemma {:induction false} RegisteredAllKeeps(st: Subscriptions, games: seq<GameRow>, rule: AddressRule)
    ensures RegisteredAll(st, games, rule).listeners.Keys == st.listeners.Keys + (set i | 0 <= i < |games| :: games[i].id)
    ensures forall id :: id in st.listeners && (forall i :: 0 <= i < |games| ==> games[i].id != id) ==>
      RegisteredAll(st, games, rule).listeners[id] == st.listeners[id]
  {
    if games != [] {
      var n := |games| - 1;
      RegisteredAllKeeps(st, games[..n], rule);
      var mid := RegisteredAll(st, games[..n], rule);
      assert RegisteredAll(st, games, rule) == mid.Registered(games[n].id, rule.Of(games[n], Over), rule.Of(games[n], Under));
      assert (set i | 0 <= i < |games| :: games[i].id) == (set i | 0 <= i < n :: games[..n][i].id) + {games[n].id};
      forall id | id in st.listeners && (forall i :: 0 <= i < |games| ==> games[i].id != id)
        ensures forall i :: 0 <= i < n ==> games[..n][i].id != id
      {
        assert forall i :: 0 <= i < n ==> games[..n][i] == games[i];
      }
    }
  }

  /** Registering one game keeps both watches of another. */
  lemma RegisterKeepsPair(st: Subscriptions, g: GameRow, x: GameRow, rule: AddressRule)
    requires st.Consistent() && x.id != g.id
    requires st.Watching(x.id, Over, rule.Of(x, Over)) && st.Watching(x.id, Under, rule.Of(x, Under))
    ensures st.Registered(g.id, rule.Of(g, Over), rule.Of(g, Under)).Watching(x.id, Over, rule.Of(x, Over))
    ensures st.Registered(g.id, rule.Of(g, Over), rule.Of(g, Under)).Watching(x.id, Under, rule.Of(x, Under))
  {
    RegisterKeepsOthers(st, g.id, rule.Of(g, Over), rule.Of(g, Under), x.id, Over, rule.Of(x, Over));
    RegisterKeepsOthers(st, g.id, rule.Of(g, Over), rule.Of(g, Under), x.id, Under, rule.Of(x, Under));
  }

  /** After a tick over games with distinct ids that keeps the registry
      consistent, every game of the tick watches its two addresses. */
  lemma {:induction false} RegisteredAllWatches(st: Subscriptions, games: seq<GameRow>, rule: AddressRule, i: nat)
    requires st.Consistent() && DistinctIds(games) && i < |games|
    ensures RegisteredAll(st, games, rule).Watching(games[i].id, Over, rule.Of(games[i], Over))
    ensures RegisteredAll(st, games, rule).Watching(games[i].id, Under, rule.Of(games[i], Under))
  {
    var n := |games| - 1;
    var g := games[n];
    var front := games[..n];
    RegisteredAllConsistent(st, front, rule);
    var mid := RegisteredAll(st, front, rule);
    assert RegisteredAll(st, games, rule) == mid.Registered(g.id, rule.Of(g, Over), rule.Of(g, Under));
    if i == n {
      RegisterConsistent(mid, g.id, rule.Of(g, Over), rule.Of(g, Under));
    } else {
      assert DistinctIds(front);
      assert front[i] == games[i] && games[i].id != g.id;
      RegisteredAllWatches(st, front, rule, i);
      RegisterKeepsPair(mid, g, games[i], rule);
    }
  }

  /** Shutdown empties the connection's subscriptions of a consistent
      registry by removing, game by game, both handles of each pair. */
  lemma ClosedConsistent(st: Subscriptions)
    ensures st.Consistent() ==> st.Closed().Consistent()
    ensures st.Closed().open == map[] && st.Closed().listeners == st.listeners
  {
  }

  /** A provider's registry. */
  class Registry {
    var listeners: map<nat, Pair>
    var subscriptions: map<nat, Watch>
    var nextHandle: nat

    function State(): Subscriptions
      reads this
    {
      Subscriptions(listeners, subscriptions, nextHandle)
    }

    constructor ()
      ensures State() == Subscriptions(map[], map[], 0) && State().Consistent()
    {
      listeners, subscriptions, nextHandle := map[], map[], 0;
    }

    /** The loop of a tick: registers each game in turn. */
    method RegisterEach(games: seq<GameRow>, rule: AddressRule)
      modifies this
      ensures State() == RegisteredAll(old(State()), games, rule)
    {
      for i := 0 to |games|
        invariant State() == RegisteredAll(old(State()), games[..i], rule)
      {
        assert games[..i + 1][..i] == games[..i];
        RegisterOne(games[i], rule);
      }
      assert games[..|games|] == games;
    }

    /** One game of a tick: removes both subscriptions of any pair it has,
        then subscribes over and under and stores the new pair. */
    method RegisterOne(g: GameRow, rule: AddressRule)
      modifies this
      ensures State() == old(State()).Registered(g.id, rule.Of(g, Over), rule.Of(g, Under))
    {
      var open := subscriptions;
      if g.id in listeners {
        // both removals of the replaced pair
        open := open - {listeners[g.id].over, listeners[g.id].under};
      }
      var over, under := nextHandle, nextHandle + 1;
      subscriptions := open[over := Watch(g.id, Over, rule.Of(g, Over))][under := Watch(g.id, Under, rule.Of(g, Under))];
      listeners := listeners[g.id := Pair(over, under)];
      nextHandle := nextHandle + 2;
    }

    /** `shutdown`: removes both subscriptions of every pair. */
    method Shutdown()
      requires State().Consistent()
      modifies this
      ensures State() == old(State()).Closed()
    {
      var ids := listeners.Keys;
      while ids != {}
        invariant State().Consistent()
        invariant listeners == old(listeners) && nextHandle == old(nextHandle)
        invariant forall h :: h in subscriptions ==> subscriptions[h].gameId in ids
        decreases ids
      {
        var id :| id in ids;
        subscriptions := subscriptions - {listeners[id].over} - {listeners[id].under};
        ids := ids - {id};
      }
      assert subscriptions.Keys == {};
    }
  }

  // ---------------------------------------------------------------------------
  // The cursor into a record table
  // ---------------------------------------------------------------------------

  /** `query().where(...).orderBy('createdAt', 'desc').first()`: the key of a
      row that matches with the latest `createdAt`, or None when no row
      matches. Which of several rows with the same `createdAt` comes first
      is the database's choice. */
  method Newest<R>(rows: map<Signature, R>, matches: R -> bool, createdAt: R -> int)
    returns (key: Option<Signature>)
    ensures key.None? <==> forall s :: s in rows ==> !matches(rows[s])
    ensures key.Some? ==> (
      && key.value in rows && matches(rows[key.value])
      && forall s :: s in rows && matches(rows[s]) ==> createdAt(rows[s]) <= createdAt(rows[key.value]))
  {
    key := None;
    var left := rows.Keys;
    while left != {}
      invariant left <= rows.Keys
      invariant key.None? <==> forall s :: s in rows && s !in left ==> !matches(rows[s])
      invariant key.Some? ==> (
        && key.value in rows && key.value !in left && matches(rows[key.value])
        && forall s :: s in rows && s !in left && matches(rows[s]) ==> createdAt(rows[s]) <= createdAt(rows[key.value]))
      decreases left
    {
      var s :| s in left;
      if matches(rows[s]) && (key.None? || createdAt(rows[key.value]) < createdAt(rows[s])) {
        key := Some(s);
      }
      left := left - {s};
    }
  }

  // ---------------------------------------------------------------------------
  // From the transactions of a watched address to engine calls
  // ---------------------------------------------------------------------------

  /** The three watchers: SOL into a pot buys, tokens into a pot's token
      account sell, and tokens into a pot's token account after the game
      redeem. */
  datatype Kind = Minter | Receiver | Redeemer

  /** A transfer as a watcher reads it: who it is credited to, where it
      went, and how much. SOL transfers are credited to their source, token
      transfers to the owner of their source account. */
  datatype Arrival = Arrival(owner: Address, destination: Address, amount: nat)

  /** An engine call a listener issues. */
  datatype EngineCall =
    | BuyCall(owner: Address, side: Side, signature: Signature, lamports: nat)
    | SellCall(owner: Address, side: Side, signature: Signature, amount: nat)
    | RedeemCall(gameId: nat, owner: Address, signature: Signature, amount: nat)

  /** The calls a listener issued, and the error that ended it early. */
  datatype Dispatched = Dispatched(calls: seq<EngineCall>, error: Option<Error>)

  function SolArrivals(ts: seq<Helpers.SolTransfer>): (r: seq<Arrival>)
    ensures |r| == |ts|
    ensures forall i :: 0 <= i < |ts| ==> r[i] == Arrival(ts[i].source, ts[i].destination, ts[i].lamports)
  {
    seq(|ts|, i requires 0 <= i < |ts| => Arrival(ts[i].source, ts[i].destination, ts[i].lamports))
  }

  function TokenArrivals(ts: seq<Helpers.TokenTransfer>): (r: seq<Arrival>)
    ensures |r| == |ts|
    ensures forall i :: 0 <= i < |ts| ==> r[i] == Arrival(ts[i].owner, ts[i].destination, ts[i].amount)
  {
    seq(|ts|, i requires 0 <= i < |ts| => Arrival(ts[i].owner, ts[i].destination, ts[i].amount))
  }

  /** The transfers of one transaction, or None when the decoding the
      watcher uses throws on one of its instructions. `owners` is the
      owner of every token account. */
  function Decoded(kind: Kind, tx: ParsedTransaction, owners: map<Address, Address>): Option<seq<Arrival>>
  {
    if kind == Minter then
      if forall i :: 0 <= i < |tx.instructions| ==> !Helpers.SolMalformed(tx.instructions[i])
      then Some(SolArrivals(Helpers.SolTransfersOf(tx.instructions))) else None
    else
      if forall i :: 0 <= i < |tx.instructions| ==> Helpers.TokenWellFormed(tx.instructions[i], owners)
      then Some(TokenArrivals(Helpers.TokenTransfersOf(tx.instructions, owners))) else None
  }

  /** The decoding of one transaction as the watcher runs it. */
  method Decode(kind: Kind, tx: ParsedTransaction, owners: map<Address, Address>)
    returns (r: Result<seq<Arrival>>)
    ensures r.Ok? <==> Decoded(kind, tx, owners).Some?
    ensures r.Ok? ==> r.value == Decoded(kind, tx, owners).value
    ensures r.Err? ==> r.error == MalformedInstruction
  {
    if kind == Minter {
      var ts := Helpers.GetSolTransferInfoFromParsedTransaction(tx);
      if ts.Err? {
        return Err(ts.error);
      }
      return Ok(SolArrivals(ts.value));
    }
    var ts := Helpers.GetTokenTransferInfoFromParsedTransaction(tx, owners);
    if ts.Err? {
      return Err(ts.error);
    }
    return Ok(TokenArrivals(ts.value));
  }

  /** The engine call for a transfer into the watched address. */
  function CallOf(kind: Kind, w: Watch, a: Arrival, signature: Signature): EngineCall
  {
    match kind
    case Minter => BuyCall(a.owner, w.side, signature, a.amount)
    case Receiver => SellCall(a.owner, w.side, signature, a.amount)
    case Redeemer => RedeemCall(w.gameId, a.owner, signature, a.amount)
  }

  /** The calls for the transfers of one transaction, in transfer order:
      one for each transfer whose destination is the watched address. */
  function CallsFor(kind: Kind, w: Watch, arrivals: seq<Arrival>, signature: Signature): seq<EngineCall>
  {
    if arrivals == [] then []
    else
      var last := arrivals[|arrivals| - 1];
      CallsFor(kind, w, arrivals[..|arrivals| - 1], signature) +
        (if last.destination == w.address then [CallOf(kind, w, last, signature)] else [])
  }

  /** The calls for a run of transactions, in order, up to the first
      transaction whose decoding throws. */
  function Dispatch(kind: Kind, w: Watch, entries: seq<Helpers.Entry>, owners: map<Address, Address>): Dispatched
  {
    if entries == [] then Dispatched([], None)
    else
      var decoded := Decoded(kind, entries[0].transaction, owners);
      if decoded.None? then Dispatched([], Some(MalformedInstruction))
      else
        var rest := Dispatch(kind, w, entries[1..], owners);
        Dispatched(CallsFor(kind, w, decoded.value, entries[0].signature) + rest.calls, rest.error)
  }

  /** A listener's run after the fetch: the fetch's error, or the calls. */
  function AfterFetch(kind: Kind, w: Watch, fetched: Result<seq<Helpers.Entry>>, owners: map<Address, Address>): Dispatched
  {
    if fetched.Err? then Dispatched([], Some(fetched.error)) else Dispatch(kind, w, fetched.value, owners)
  }

  lemma {:induction false} CallsForSound(kind: Kind, w: Watch, arrivals: seq<Arrival>, signature: Signature, c: EngineCall)
    requires c in CallsFor(kind, w, arrivals, signature)
    ensures exists j :: (
      && 0 <= j < |arrivals| && arrivals[j].destination == w.address
      && c == CallOf(kind, w, arrivals[j], signature))
  {
    var n := |arrivals| - 1;
    if c in CallsFor(kind, w, arrivals[..n], signature) {
      CallsForSound(kind, w, arrivals[..n], signature, c);
      var j :| 0 <= j < n && arrivals[..n][j].destination == w.address && c == CallOf(kind, w, arrivals[..n][j], signature);
      assert arrivals[j] == arrivals[..n][j];
    }
  }

  lemma {:induction false} CallsForComplete(kind: Kind, w: Watch, arrivals: seq<Arrival>, signature: Signature, j: nat)
    requires j < |arrivals| && arrivals[j].destination == w.address
    ensures CallOf(kind, w, arrivals[j], signature) in CallsFor(kind, w, arrivals, signature)
  {
    var n := |arrivals| - 1;
    if j < n {
      assert arrivals[..n][j] == arrivals[j];
      CallsForComplete(kind, w, arrivals[..n], signature, j);
    }
  }

  /** Every call comes from a transfer into the watched address, inside one
      of the fetched transactions, and carries that transaction's signature:
      the watched side for buys and sells, the watched game for redeems. */
  lemma {:induction false} DispatchSound(kind: Kind, w: Watch, entries: seq<Helpers.Entry>,
                                         owners: map<Address, Address>, c: EngineCall)
    requires c in Dispatch(kind, w, entries, owners).calls
    ensures exists k, j :: (
      && 0 <= k < |entries| && Decoded(kind, entries[k].transaction, owners).Some?
      && 0 <= j < |Decoded(kind, entries[k].transaction, owners).value|
      && Decoded(kind, entries[k].transaction, owners).value[j].destination == w.address
      && c == CallOf(kind, w, Decoded(kind, entries[k].transaction, owners).value[j], entries[k].signature))
  {
    var decoded := Decoded(kind, entries[0].transaction, owners);
    var here := CallsFor(kind, w, decoded.value, entries[0].signature);
    if c in here {
      CallsForSound(kind, w, decoded.value, entries[0].signature, c);
      var j :| 0 <= j < |decoded.value| && decoded.value[j].destination == w.address &&
        c == CallOf(kind, w, decoded.value[j], entries[0].signature);
      assert 0 < |entries|;
    } else {
      DispatchSound(kind, w, entries[1..], owners, c);
      var k, j :| && 0 <= k < |entries[1..]| && Decoded(kind, entries[1..][k].transaction, owners).Some?
        && 0 <= j < |Decoded(kind, entries[1..][k].transaction, owners).value|
        && Decoded(kind, entries[1..][k].transaction, owners).value[j].destination == w.address
        && c == CallOf(kind, w, Decoded(kind, entries[1..][k].transaction, owners).value[j], entries[1..][k].signature);
      assert entries[1..][k] == entries[k + 1];
    }
  }

  /** When every fetched transaction decodes, the run ends without error
      and every transfer into the watched address gets its call. */
  lemma {:induction false} DispatchComplete(kind: Kind, w: Watch, entries: seq<Helpers.Entry>,
                                            owners: map<Address, Address>, k: nat, j: nat)
    requires forall i :: 0 <= i < |entries| ==> Decoded(kind, entries[i].transaction, owners).Some?
    requires k < |entries| && j < |Decoded(kind, entries[k].transaction, owners).value|
    requires Decoded(kind, entries[k].transaction, owners).value[j].destination == w.address
    ensures Dispatch(kind, w, entries, owners).error.None?
    ensures CallOf(kind, w, Decoded(kind, entries[k].transaction, owners).value[j], entries[k].signature)
      in Dispatch(kind, w, entries, owners).calls
  {
    DispatchEnds(kind, w, entries, owners);
    if k == 0 {
      CallsForComplete(kind, w, Decoded(kind, entries[0].transaction, owners).value, entries[0].signature, j);
    } else {
      assert entries[1..][k - 1] == entries[k];
      DispatchComplete(kind, w, entries[1..], owners, k - 1, j);
    }
  }

  /** A run ends with an error exactly when a fetched transaction does not
      decode, and that error is the malformed-instruction one. */
  lemma {:induction false} DispatchEnds(kind: Kind, w: Watch, entries: seq<Helpers.Entry>, owners: map<Address, Address>)
    ensures Dispatch(kind, w, entries, owners).error.Some? <==>
      exists i :: 0 <= i < |entries| && Decoded(kind, entries[i].transaction, owners).None?
    ensures Dispatch(kind, w, entries, owners).error.Some? ==>
      Dispatch(kind, w, entries, owners).error == Some(MalformedInstruction)
  {
    if entries != [] && Decoded(kind, entries[0].transaction, owners).Some? {
      DispatchEnds(kind, w, entries[1..], owners);
      forall i | 1 <= i < |entries|
        ensures entries[i] == entries[1..][i - 1]
      {
      }
      if exists i :: 0 <= i < |entries| && Decoded(kind, entries[i].transaction, owners).None? {
        var i :| 0 <= i < |entries| && Decoded(kind, entries[i].transaction, owners).None?;
        assert entries[1..][i - 1] == entries[i];
      }
    }
  }

  /** The inner loop of a listener over the transfers of one transaction. */
  method CallsOfEntry(kind: Kind, w: Watch, arrivals: seq<Arrival>, signature: Signature)
    returns (calls: seq<EngineCall>)
    ensures calls == CallsFor(kind, w, arrivals, signature)
  {
    calls := [];
    for j := 0 to |arrivals|
      invariant calls == CallsFor(kind, w, arrivals[..j], signature)
    {
      var a := arrivals[j];
      assert arrivals[..j + 1][..j] == arrivals[..j];
      if a.destination == w.address {
        calls := calls + [CallOf(kind, w, a, signature)];
      }
    }
    assert arrivals[..|arrivals|] == arrivals;
  }

  /** One fetched transaction of a run: one that does not decode ends the
      run with the malformed-instruction error, one that does contributes
      its calls ahead of the rest of the run. */
  lemma DispatchStep(kind: Kind, w: Watch, entries: seq<Helpers.Entry>, owners: map<Address, Address>, i: nat)
    requires i < |entries|
    ensures var decoded := Decoded(kind, entries[i].transaction, owners);
      decoded.None? ==> Dispatch(kind, w, entries[i..], owners) == Dispatched([], Some(MalformedInstruction))
    ensures var decoded := Decoded(kind, entries[i].transaction, owners);
      decoded.Some? ==> (Dispatch(kind, w, entries[i..], owners) ==
        Dispatched(CallsFor(kind, w, decoded.value, entries[i].signature) + Dispatch(kind, w, entries[i + 1..], owners).calls,
                   Dispatch(kind, w, entries[i + 1..], owners).error))
  {
    var rest := entries[i..];
    assert rest[0] == entries[i] && rest[1..] == entries[i + 1..];
  }

  /** The body of a listener's outer loop: the calls for one fetched
      transaction, or the error its decoding throws. */
  method EntryCalls(kind: Kind, w: Watch, e: Helpers.Entry, owners: map<Address, Address>)
    returns (r: Result<seq<EngineCall>>)
    ensures r.Ok? <==> Decoded(kind, e.transaction, owners).Some?
    ensures r.Ok? ==> r.value == CallsFor(kind, w, Decoded(kind, e.transaction, owners).value, e.signature)
    ensures r.Err? ==> r.error == MalformedInstruction
  {
    var arrivals := Decode(kind, e.transaction, owners);
    if arrivals.Err? {
      return Err(arrivals.error);
    }
    var calls := CallsOfEntry(kind, w, arrivals.value, e.signature);
    return Ok(calls);
  }

  /** The nested loops of a listener over the fetched transactions and
      their transfers. */
  method DispatchEntries(kind: Kind, w: Watch, entries: seq<Helpers.Entry>, owners: map<Address, Address>)
    returns (r: Dispatched)
    ensures r == Dispatch(kind, w, entries, owners)
  {
    var calls := [];
    assert entries[0..] == entries;
    for i := 0 to |entries|
      invariant Dispatch(kind, w, entries, owners) ==
        Dispatched(calls + Dispatch(kind, w, entries[i..], owners).calls, Dispatch(kind, w, entries[i..], owners).error)
    {
      DispatchStep(kind, w, entries, owners, i);
      var here := EntryCalls(kind, w, entries[i], owners);
      if here.Err? {
        return Dispatched(calls, Some(here.error));
      }
      calls := calls + here.value;
    }
    assert entries[|entries|..] == [];
    return Dispatched(calls, None);
  }
}
