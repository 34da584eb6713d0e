/**
  Streams cut into turns: the bytes of all turns together, the chunks of one client among them,
  and where every byte of the whole is in the parts.
*/
module RelayTurns {
  import opened Wire
  import opened Relays

  function Flat(chunks: seq<seq<Byte>>): seq<Byte> {
    if chunks == [] then [] else Flat(chunks[..|chunks| - 1]) + chunks[|chunks| - 1]
  }

  /** All bytes of the turns, in order. */
  function All(turns: seq<Turn>): seq<Byte> {
    if turns == [] then [] else All(turns[..|turns| - 1]) + turns[|turns| - 1].bytes
  }

  /** The chunks of one client's turns, in order. */
  function By(turns: seq<Turn>, who: nat): seq<seq<Byte>> {
    if turns == [] then []
    else
      var last := turns[|turns| - 1];
      var before := By(turns[..|turns| - 1], who);
      if last.who == who then before + [last.bytes] else before
  }

  lemma AllSnoc(turns: seq<Turn>, t: Turn)
    ensures All(turns + [t]) == All(turns) + t.bytes
  {
    assert (turns + [t])[..|turns|] == turns;
  }

  lemma BySnoc(turns: seq<Turn>, t: Turn, who: nat)
    ensures By(turns + [t], who) == if t.who == who then By(turns, who) + [t.bytes] else By(turns, who)
  {
    assert (turns + [t])[..|turns|] == turns;
  }

  lemma FlatSnoc(chunks: seq<seq<Byte>>, chunk: seq<Byte>)
    ensures Flat(chunks + [chunk]) == Flat(chunks) + chunk
  {
    assert (chunks + [chunk])[..|chunks|] == chunks;
  }

  lemma {:induction false} NoTurns(turns: seq<Turn>, who: nat)
    requires forall i :: 0 <= i < |turns| ==> turns[i].who < who
    ensures By(turns, who) == []
  {
    if turns != [] { NoTurns(turns[..|turns| - 1], who); }
  }

  // ---------------------------------------------------------------- places

  /** A byte of one client: which of its chunks, and which byte of that. */
  datatype Place = Place(who: nat, chunk: nat, offset: nat)

  predicate Within(turns: seq<Turn>, p: Place) {
    p.chunk < |By(turns, p.who)| && p.offset < |By(turns, p.who)[p.chunk]|
  }

  /** Of two places of one client the first comes first. */
  predicate InOrder(p: Place, q: Place) {
    p.who == q.who ==> p.chunk < q.chunk || (p.chunk == q.chunk && p.offset < q.offset)
  }

  /** Whose the `x`-th byte of all is, and where. */
  function PlaceOf(turns: seq<Turn>, x: nat): Place
    requires x < |All(turns)|
  {
    var before, last := turns[..|turns| - 1], turns[|turns| - 1];
    if x < |All(before)| then PlaceOf(before, x) else Place(last.who, |By(before, last.who)|, x - |All(before)|)
  }

  /** The clients' chunks partition the whole, keeping its order: every byte of the whole is at one
      place of one of the first `n` clients, every place of a client is that of one byte, and bytes
      of one client stand in the order they have in the whole. */
  ghost predicate Partitions(turns: seq<Turn>, n: nat) {
    && (forall x :: 0 <= x < |All(turns)| ==>
          var p := PlaceOf(turns, x); p.who < n && Within(turns, p) && By(turns, p.who)[p.chunk][p.offset] == All(turns)[x])
    && (forall p :: Within(turns, p) ==> exists x :: 0 <= x < |All(turns)| && PlaceOf(turns, x) == p)
    && (forall x, y :: 0 <= x < y < |All(turns)| ==> InOrder(PlaceOf(turns, x), PlaceOf(turns, y)))
  }

  lemma {:induction false} PlaceHolds(turns: seq<Turn>, n: nat, x: nat)
    requires (forall i :: 0 <= i < |turns| ==> turns[i].who < n) && x < |All(turns)|
    ensures var p := PlaceOf(turns, x); p.who < n && Within(turns, p) && By(turns, p.who)[p.chunk][p.offset] == All(turns)[x]
  {
    var before := turns[..|turns| - 1];
    if x < |All(before)| { PlaceHolds(before, n, x); }
  }

  lemma {:induction false} PlacesInOrder(turns: seq<Turn>, x: nat, y: nat)
    requires x < y < |All(turns)|
    ensures InOrder(PlaceOf(turns, x), PlaceOf(turns, y))
  {
    var before := turns[..|turns| - 1];
    if y < |All(before)| {
      PlacesInOrder(before, x, y);
    } else if x < |All(before)| {
      SomeoneIsLast(before);
      PlaceHolds(before, Bound(before), x);
    }
  }

  /** A number above every client of the turns. */
  function Bound(turns: seq<Turn>): nat {
    if turns == [] then 0
    else
      var b, last := Bound(turns[..|turns| - 1]), turns[|turns| - 1];
      if last.who < b then b else last.who + 1
  }

  lemma {:induction false} SomeoneIsLast(turns: seq<Turn>)
    ensures forall i :: 0 <= i < |turns| ==> turns[i].who < Bound(turns)
  {
    if turns != [] {
      var before := turns[..|turns| - 1];
      SomeoneIsLast(before);
      assert forall i :: 0 <= i < |before| ==> turns[i] == before[i];
    }
  }

  lemma {:induction false} EveryPlace(turns: seq<Turn>, p: Place) returns (x: nat)
    requires Within(turns, p)
    ensures x < |All(turns)| && PlaceOf(turns, x) == p
  {
    var before, last := turns[..|turns| - 1], turns[|turns| - 1];
    if last.who == p.who && p.chunk == |By(before, p.who)| {
      x := |All(before)| + p.offset;
    } else {
      x := EveryPlace(before, p);
    }
  }

  lemma TurnsPartition(turns: seq<Turn>, n: nat)
    requires forall i :: 0 <= i < |turns| ==> turns[i].who < n
    ensures Partitions(turns, n)
  {
    forall x | 0 <= x < |All(turns)|
      ensures var p := PlaceOf(turns, x); p.who < n && Within(turns, p) && By(turns, p.who)[p.chunk][p.offset] == All(turns)[x]
    {
      PlaceHolds(turns, n, x);
    }
    forall p | Within(turns, p) ensures exists x :: 0 <= x < |All(turns)| && PlaceOf(turns, x) == p {
      var x := EveryPlace(turns, p);
    }
    forall x, y | 0 <= x < y < |All(turns)| ensures InOrder(PlaceOf(turns, x), PlaceOf(turns, y)) {
      PlacesInOrder(turns, x, y);
    }
  }
}
