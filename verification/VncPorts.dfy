/**
 The VNC port reservations of macOS guests (`provider/cocoon/macos.go`).
 */
module VncPorts {
  type Key = string
  type Reservations = map<Key, int>

  const PORT_BASE := 5900
  const PORT_SPAN := 100

  /** The hundred ports of the displays :0 to :99. */
  predicate InSpan(port: int) {
    5900 <= port < 6000
  }

  predicate Taken(vnc: Reservations, port: int) {
    exists key :: key in vnc && vnc[key] == port
  }

  /** The lowest port of the span that is not in use, from `from` up; 0 when there is none. */
  function LowestFree(used: set<int>, from: int): (port: int)
    requires PORT_BASE <= from <= PORT_BASE + PORT_SPAN
    ensures port == 0 || (from <= port < PORT_BASE + PORT_SPAN && port !in used)
    ensures forall p :: from <= p < PORT_BASE + PORT_SPAN && p !in used ==> PORT_BASE <= port <= p
    decreases PORT_BASE + PORT_SPAN - from
  {
    if from == PORT_BASE + PORT_SPAN then 0
    else if from !in used then from
    else LowestFree(used, from + 1)
  }

  function Claimed(vnc: Reservations, key: Key, preferred: int): int {
    if key in vnc then vnc[key]
    else if InSpan(preferred) && preferred !in vnc.Values then preferred
    else LowestFree(vnc.Values, PORT_BASE)
  }

  /** Without a password, and when the span is exhausted, nothing is reserved and the port is 0. */
  function AfterClaim(vnc: Reservations, key: Key, preferred: int, password: string): Reservations {
    if password == "" || Claimed(vnc, key, preferred) == 0 then vnc
    else vnc[key := Claimed(vnc, key, preferred)]
  }

  /** The port is the key's reservation, a 0 changes nothing, and no other key's reservation changes. */
  ghost predicate Reserved(before: Reservations, after: Reservations, key: Key, port: int) {
    && (if port != 0 then key in after && after[key] == port else after == before)
    && (forall k :: k != key ==> (k in after <==> k in before) && (k in after ==> after[k] == before[k]))
  }

  lemma ClaimIsRecorded(vnc: Reservations, key: Key, preferred: int, password: string)
    ensures Reserved(vnc, AfterClaim(vnc, key, preferred, password), key,
                     if password == "" then 0 else Claimed(vnc, key, preferred))
  {
  }

  function AfterAdopt(vnc: Reservations, key: Key, display: int): Reservations {
    if display < 0 then vnc - {key} else vnc[key := PORT_BASE + display]
  }

  class Ports {
    const password: string
    var vnc: Reservations

    constructor (password: string)
      ensures this.password == password && vnc == map[]
    {
      this.password, vnc := password, map[];
    }

    /** The set of ports in use, collected entry by entry. */
    method Used() returns (used: set<int>)
      ensures used == vnc.Values
    {
      used := {};
      var keys := vnc.Keys;
      while keys != {}
        invariant keys <= vnc.Keys
        invariant forall key :: key in vnc && key !in keys ==> vnc[key] in used
        invariant used <= vnc.Values
        decreases keys
      {
        var key :| key in keys;
        used := used + {vnc[key]};
        keys := keys - {key};
      }
      assert vnc.Values <= used;
    }

    /** Reserve a port: what is returned is the key's reservation from then on, and nobody else's changes. */
    method Claim(key: Key, preferred: int) returns (port: int)
      modifies this
      ensures Reserved(old(vnc), vnc, key, port)
      ensures port == if password == "" then 0 else Claimed(old(vnc), key, preferred)
      ensures vnc == AfterClaim(old(vnc), key, preferred, password)
    {
      ClaimIsRecorded(vnc, key, preferred, password);
      if password == "" {
        return 0;
      }
      if key in vnc {
        return vnc[key];
      }
      var used := Used();
      if InSpan(preferred) && preferred !in used {
        vnc := vnc[key := preferred];
        return preferred;
      }
      for d := 0 to PORT_SPAN
        invariant vnc == old(vnc)
        invariant LowestFree(used, PORT_BASE + d) == LowestFree(used, PORT_BASE)
      {
        port := PORT_BASE + d;
        if port !in used {
          vnc := vnc[key := port];
          return port;
        }
      }
      return 0;
    }

    /** Record the display a live guest serves; a negative one means none. */
    method Adopt(key: Key, display: int) returns (port: int)
      modifies this
      ensures Distinct(old(vnc)) ==> (Distinct(vnc) <==> !Collides(old(vnc), AdoptEvent(key, display)))
      ensures vnc == AfterAdopt(old(vnc), key, display)
      ensures forall k :: k != key ==> (k in vnc <==> k in old(vnc)) && (k in vnc ==> vnc[k] == old(vnc)[k])
      ensures port == if key in vnc then vnc[key] else 0
    {
      ghost var before := vnc;
      if Distinct(before) {
        DistinctStep(before, AdoptEvent(key, display), password);
      }
      if display < 0 {
        vnc := vnc - {key};
        return 0;
      }
      port := PORT_BASE + display;
      vnc := vnc[key := port];
    }

    /** Give the key's port back: of node-unique ports it is then free, and the others are held as before. */
    method Release(key: Key)
      modifies this
      ensures vnc == old(vnc) - {key}
      ensures Distinct(old(vnc)) ==> Distinct(vnc) && (key in old(vnc) ==> !Taken(vnc, old(vnc)[key]))
    {
      vnc := vnc - {key};
    }
  }

  // ---------------------------------------------------------------- one claim

  /** A first claim gives the preferred port if it can, else the lowest free one, and fails exactly when all are taken. */
  lemma FirstClaim(vnc: Reservations, key: Key, preferred: int)
    requires key !in vnc
    ensures var port := Claimed(vnc, key, preferred);
      && (port != 0 ==> InSpan(port) && !Taken(vnc, port))
      && (port == 0 <==> forall p :: InSpan(p) ==> Taken(vnc, p))
      && (InSpan(preferred) && !Taken(vnc, preferred) ==> port == preferred)
      && (!(InSpan(preferred) && !Taken(vnc, preferred)) ==> forall p :: InSpan(p) && p < port ==> Taken(vnc, p))
  {
    forall p
      ensures p in vnc.Values <==> Taken(vnc, p)
    {
    }
    var port := Claimed(vnc, key, preferred);
    if port == 0 {
      forall p | InSpan(p)
        ensures Taken(vnc, p)
      {
        assert p in vnc.Values;
      }
    }
  }

  // ---------------------------------------------------------------- runs

  datatype Event =
    | ClaimEvent(key: Key, preferred: int)
    | AdoptEvent(key: Key, display: int)
    | ReleaseEvent(key: Key)

  function Next(vnc: Reservations, e: Event, password: string): Reservations {
    match e
    case ClaimEvent(key, preferred) => AfterClaim(vnc, key, preferred, password)
    case AdoptEvent(key, display) => AfterAdopt(vnc, key, display)
    case ReleaseEvent(key) => vnc - {key}
  }

  ghost predicate Distinct(vnc: Reservations) {
    forall a, b :: a in vnc && b in vnc && a != b ==> vnc[a] != vnc[b]
  }

  /** Another key already holds the adopted display. */
  ghost predicate Collides(vnc: Reservations, e: Event) {
    e.AdoptEvent? && e.display >= 0 && Taken(vnc - {e.key}, PORT_BASE + e.display)
  }

  /** A step keeps the ports node-unique exactly when it does not adopt a display another key holds. */
  lemma DistinctStep(vnc: Reservations, e: Event, password: string)
    requires Distinct(vnc)
    ensures Distinct(Next(vnc, e, password)) <==> !Collides(vnc, e)
  {
    match e
    case ClaimEvent(key, preferred) =>
      if key !in vnc {
        FirstClaim(vnc, key, preferred);
      }
    case AdoptEvent(key, display) =>
      if Collides(vnc, e) {
        var other :| other in vnc - {key} && (vnc - {key})[other] == PORT_BASE + display;
        assert Next(vnc, e, password)[other] == Next(vnc, e, password)[key];
      } else if display >= 0 {
        forall other | other in vnc && other != key
          ensures vnc[other] != PORT_BASE + display
        {
          assert other in vnc - {key};
        }
      }
    case ReleaseEvent(key) =>
  }

  ghost predicate AlwaysDistinct(vnc: Reservations, es: seq<Event>, password: string)
    decreases |es|
  {
    Distinct(vnc) && (es == [] || AlwaysDistinct(Next(vnc, es[0], password), es[1..], password))
  }

  ghost predicate NeverCollides(vnc: Reservations, es: seq<Event>, password: string)
    decreases |es|
  {
    es == [] || (!Collides(vnc, es[0]) && NeverCollides(Next(vnc, es[0], password), es[1..], password))
  }

  /** Over any run, ports stay node-unique throughout exactly when no adoption names a display another key holds. */
  lemma {:induction false} PortsAreUniqueExactly(vnc: Reservations, es: seq<Event>, password: string)
    requires Distinct(vnc)
    ensures AlwaysDistinct(vnc, es, password) <==> NeverCollides(vnc, es, password)
    decreases |es|
  {
    if es != [] {
      DistinctStep(vnc, es[0], password);
      if !Collides(vnc, es[0]) {
        PortsAreUniqueExactly(Next(vnc, es[0], password), es[1..], password);
      }
    }
  }

  function Run(vnc: Reservations, es: seq<Event>, password: string): Reservations
    decreases |es|
  {
    if es == [] then vnc else Run(Next(vnc, es[0], password), es[1..], password)
  }

  /** The last event on the key, if it was an adoption of a display, named one of 100 or more. */
  predicate AdoptedBeyondSpan(es: seq<Event>, key: Key, before: bool)
    decreases |es|
  {
    if es == [] then before
    else
      var beyond :=
        if es[0].AdoptEvent? && es[0].key == key then es[0].display >= PORT_SPAN
        else if es[0] == ReleaseEvent(key) then false
        else before;
      AdoptedBeyondSpan(es[1..], key, beyond)
  }

  /** A held port leaves the span in one way only: the key's guest was last adopted on display 100 or above. */
  lemma {:induction false} PortInSpanExactly(vnc: Reservations, es: seq<Event>, password: string, key: Key)
    ensures var before := key in vnc && !InSpan(vnc[key]);
      key in Run(vnc, es, password) && !InSpan(Run(vnc, es, password)[key]) <==> AdoptedBeyondSpan(es, key, before)
    decreases |es|
  {
    if es != [] {
      if es[0].ClaimEvent? && es[0].key !in vnc {
        FirstClaim(vnc, es[0].key, es[0].preferred);
      }
      PortInSpanExactly(Next(vnc, es[0], password), es[1..], password, key);
    }
  }

  ghost predicate Undisturbed(es: seq<Event>, key: Key) {
    forall i :: 0 <= i < |es| ==> es[i].ClaimEvent? || es[i].key != key
  }

  /** Until the key is released or adopted, every claim repeats the port it holds. */
  lemma {:induction false} RepeatedClaimIsStable(vnc: Reservations, es: seq<Event>, password: string, key: Key, preferred: int)
    requires key in vnc && Undisturbed(es, key)
    ensures key in Run(vnc, es, password) && Claimed(Run(vnc, es, password), key, preferred) == vnc[key]
    decreases |es|
  {
    if es != [] {
      assert es[0].ClaimEvent? || es[0].key != key;
      RepeatedClaimIsStable(Next(vnc, es[0], password), es[1..], password, key, preferred);
    }
  }

  lemma {:induction false} DistinctRun(vnc: Reservations, es: seq<Event>, password: string)
    requires Distinct(vnc) && NeverCollides(vnc, es, password)
    ensures Distinct(Run(vnc, es, password))
    decreases |es|
  {
    if es != [] {
      DistinctStep(vnc, es[0], password);
      DistinctRun(Next(vnc, es[0], password), es[1..], password);
    }
  }

  /**
   A claim is recorded: whatever happens between two claims of different keys, short of a
   release or adoption of the first and an adoption that collides, they get different ports.
   */
  lemma TwoClaimsDiffer(vnc: Reservations, a: Key, preferA: int, es: seq<Event>, b: Key, preferB: int, password: string)
    requires Distinct(vnc) && a != b && password != ""
    requires var first := Next(vnc, ClaimEvent(a, preferA), password); NeverCollides(first, es, password) && Undisturbed(es, a)
    ensures var first := Next(vnc, ClaimEvent(a, preferA), password);
            var portA, portB := Claimed(vnc, a, preferA), Claimed(Run(first, es, password), b, preferB);
            portA != 0 && portB != 0 ==> portA != portB
  {
    var first := Next(vnc, ClaimEvent(a, preferA), password);
    if Claimed(vnc, a, preferA) != 0 {
      DistinctStep(vnc, ClaimEvent(a, preferA), password);
      DistinctRun(first, es, password);
      RepeatedClaimIsStable(first, es, password, a, preferA);
      if b !in Run(first, es, password) {
        FirstClaim(Run(first, es, password), b, preferB);
      }
    }
  }
}
