/**
  Passing descriptors through the serializer: one thread of a process with its descriptor
  table, its log of `close` calls and the two thread-local slots that carry descriptors
  around serde.
*/
module PassFd {
  import opened Wrappers
  import opened Wire
  import opened Packets

  type Fd = nat

  /** A writer that holds `cap` bytes has room for `more` after `done`. */
  predicate Room(cap: Option<nat>, done: seq<Byte>, more: seq<Byte>) {
    cap.None? || |done| + |more| <= cap.value
  }

  ghost predicate Distinct(fds: seq<Fd>) {
    forall i, j :: 0 <= i < j < |fds| ==> fds[i] != fds[j]
  }

  function Elements(fds: seq<Fd>): set<Fd> { set x | x in fds }

  /** `now` is `base` followed by some first part of `whole`. */
  ghost predicate Partly(base: seq<Fd>, now: seq<Fd>, whole: seq<Fd>) {
    base <= now <= base + whole
  }

  lemma PartlyFirst(base: seq<Fd>, now: seq<Fd>, first: seq<Fd>, second: seq<Fd>)
    requires Partly(base, now, first)
    ensures Partly(base, now, first + second)
  {
    assert base + (first + second) == (base + first) + second;
  }

  lemma PartlySecond(base: seq<Fd>, now: seq<Fd>, first: seq<Fd>, second: seq<Fd>)
    requires Partly(base + first, now, second)
    ensures Partly(base, now, first + second)
  {
    assert base + (first + second) == (base + first) + second;
  }

  /** Between two states of the table and the log, each of `fds` was closed exactly once and
      nothing else was. */
  ghost predicate Closed(fds: seq<Fd>, t0: map<Fd, Obj>, c0: seq<Fd>, t1: map<Fd, Obj>, c1: seq<Fd>) {
    t1 == t0 - Elements(fds) && multiset(c1) == multiset(c0) + multiset(fds)
  }

  lemma ClosedThen(fds1: seq<Fd>, fds2: seq<Fd>, t0: map<Fd, Obj>, c0: seq<Fd>, t1: map<Fd, Obj>, c1: seq<Fd>, t2: map<Fd, Obj>, c2: seq<Fd>)
    requires Closed(fds1, t0, c0, t1, c1) && Closed(fds2, t1, c1, t2, c2)
    ensures Closed(fds2 + fds1, t0, c0, t2, c2)
  {
    assert Elements(fds2 + fds1) == Elements(fds2) + Elements(fds1);
  }

  /** The handles off the front of `hs` that are no longer in `left`. */
  ghost function Gone(hs: seq<Fd>, left: seq<Fd>): seq<Fd>
    requires |left| <= |hs|
  {
    hs[..|hs| - |left|]
  }

  lemma GoneThen(first: seq<Fd>, mid: seq<Fd>, left: seq<Fd>)
    requires |left| <= |mid|
    ensures Gone(first + mid, left) == first + Gone(mid, left)
  {
  }

  /** After the descriptors off the front of a list are gone, the ones kept are still owned. */
  lemma StillOwned(first: seq<Fd>, mid: seq<Fd>, left: seq<Fd>, t0: map<Fd, Obj>)
    requires |left| <= |mid|
    requires Distinct(first + mid) && forall x :: x in first + mid ==> x in t0
    ensures Distinct(first) && forall x :: x in first ==> x in t0 - Elements(Gone(mid, left))
  {
    var all := first + mid;
    assert forall i :: 0 <= i < |first| ==> first[i] == all[i];
    forall i, j | 0 <= i < |first| && 0 <= j < |mid| ensures first[i] != mid[j] {
      assert all[|first| + j] == mid[j];
    }
  }

  lemma SecondOwned(first: seq<Fd>, mid: seq<Fd>)
    requires Distinct(first + mid)
    ensures Distinct(mid)
    ensures forall x :: x in mid ==> x in first + mid
  {
    var all := first + mid;
    assert forall j :: 0 <= j < |mid| ==> mid[j] == all[|first| + j];
  }

  /** A deserialized value and the unread input. */
  datatype Read = Read(value: Value<Fd>, rest: seq<Byte>)

  class Process {
    var table: map<Fd, Obj>          // open descriptors and what they refer to
    var closes: seq<Fd>              // every close(2) call, oldest first
    var oobSer: Option<seq<Fd>>      // OOB_SER
    var oobDe: Option<seq<Fd>>       // OOB_DE

    constructor (table: map<Fd, Obj>)
      ensures this.table == table && closes == [] && Quiet()
    {
      this.table, closes, oobSer, oobDe := table, [], None, None;
    }

    /** Neither slot is in use: the state between calls. */
    ghost predicate Quiet()
      reads this
    {
      oobSer.None? && oobDe.None?
    }

    /** Each of `fds` is open and belongs to one place in the list only. */
    ghost predicate Owns(fds: seq<Fd>)
      reads this
    {
      Distinct(fds) && forall x :: x in fds ==> x in table
    }

    // -------------------------------------------------------------- owning descriptors

    /** Dropping an `OwnedFd`. Turning one into a raw number instead closes nothing. */
    method Drop(fd: Fd)
      requires fd in table
      modifies this`table, this`closes
      ensures table == old(table) - {fd} && closes == old(closes) + [fd]
    {
      table := table - {fd};
      closes := closes + [fd];
    }

    method DropAll(fds: seq<Fd>)
      requires Owns(fds)
      modifies this`table, this`closes
      ensures Closed(fds, old(table), old(closes), table, closes)
    {
      var i := 0;
      while i < |fds|
        invariant i <= |fds|
        invariant table == old(table) - Elements(fds[..i])
        invariant multiset(closes) == multiset(old(closes)) + multiset(fds[..i])
      {
        assert fds[i] !in Elements(fds[..i]);
        assert fds[..i + 1] == fds[..i] + [fds[i]];
        Drop(fds[i]);
        i := i + 1;
      }
      assert fds[..i] == fds;
    }

    /** The kernel puts an object in the lowest free place of the table. */
    method InstallOne(obj: Obj) returns (fd: Fd)
      modifies this`table
      ensures fd !in old(table) && table == old(table)[fd := obj]
    {
      fd := 0;
      while fd in table
        decreases set x | x in table && x >= fd
      {
        assert (set x | x in table && x >= fd) == (set x | x in table && x >= fd + 1) + {fd};
        fd := fd + 1;
      }
      table := table[fd := obj];
    }

    method Install(objs: seq<Obj>) returns (fds: seq<Fd>)
      modifies this`table
      ensures |fds| == |objs| && Owns(fds)
      ensures forall i :: 0 <= i < |fds| ==> fds[i] !in old(table) && table[fds[i]] == objs[i]
      ensures old(table) == table - Elements(fds)
    {
      fds := [];
      while |fds| < |objs|
        invariant |fds| <= |objs| && Owns(fds)
        invariant forall i :: 0 <= i < |fds| ==> fds[i] !in old(table) && table[fds[i]] == objs[i]
        invariant old(table) == table - Elements(fds)
      {
        var fd := InstallOne(objs[|fds|]);
        fds := fds + [fd];
      }
    }

    // -------------------------------------------------------------- serializing

    /** `passfd::serialize`: note a descriptor, or fail outside a gather. */
    method SerializeFd(fd: Fd) returns (ok: bool)
      modifies this`oobSer
      ensures ok == old(oobSer).Some?
      ensures oobSer == if ok then Some(old(oobSer).value + [fd]) else None
    {
      if oobSer.None? { return false; }
      oobSer := Some(oobSer.value + [fd]);
      return true;
    }

    /** bincode over a writer that holds at most `cap` bytes (`None`: any number). Visits the
        value once, appending bytes to `done` and descriptors to the slot. */
    method Serialize(v: Value<Fd>, done: seq<Byte>, cap: Option<nat>) returns (ok: bool, out: seq<Byte>)
      requires oobSer.Some? && Room(cap, done, [])
      modifies this`oobSer
      ensures oobSer.Some?
      ensures ok <==> Room(cap, done, Encode(v))
      ensures ok ==> out == done + Encode(v) && oobSer.value == old(oobSer).value + Handles(v)
      ensures !ok ==> Partly(old(oobSer).value, oobSer.value, Handles(v))
      decreases v, 1
    {
      match v
      case VList(items) =>
        ok, out := Put(done, EncodeVarint(|items|), cap);
        if ok {
          Assoc(done, EncodeVarint(|items|), EncodeAll(items));
          ok, out := SerializeAll(items, out, cap);
        }
      case VSome(x) =>
        ok, out := Put(done, [1], cap);
        if ok {
          Assoc(done, [1], Encode(x));
          ok, out := Serialize(x, out, cap);
        }
      case VEnum(i, x) =>
        ok, out := Put(done, EncodeVarint(i), cap);
        if ok {
          Assoc(done, EncodeVarint(i), Encode(x));
          ok, out := Serialize(x, out, cap);
        }
      case VPair(x, y) =>
        ok, out := Serialize(x, done, cap);
        if ok {
          Assoc(done, Encode(x), Encode(y));
          Assoc(old(oobSer).value, Handles(x), Handles(y));
          ok, out := Serialize(y, out, cap);
          if !ok { PartlySecond(old(oobSer).value, oobSer.value, Handles(x), Handles(y)); }
        } else {
          PartlyFirst(old(oobSer).value, oobSer.value, Handles(x), Handles(y));
        }
      case VFd(fd) =>
        ok := SerializeFd(fd);
        out := done;
      case VBytes(b) =>
        ok, out := Put(done, EncodeVarint(|b|), cap);
        if ok {
          Assoc(done, EncodeVarint(|b|), b);
          ok, out := Put(out, b, cap);
        }
      case VU8(n) => ok, out := Put(done, [n], cap);
      case VRaw(b) => ok, out := Put(done, b, cap);
      case VNone => ok, out := Put(done, [0], cap);
      case VUnit => ok, out := true, done;
    }

    method SerializeAll(vs: seq<Value<Fd>>, done: seq<Byte>, cap: Option<nat>) returns (ok: bool, out: seq<Byte>)
      requires oobSer.Some? && Room(cap, done, [])
      modifies this`oobSer
      ensures oobSer.Some?
      ensures ok <==> Room(cap, done, EncodeAll(vs))
      ensures ok ==> out == done + EncodeAll(vs) && oobSer.value == old(oobSer).value + HandlesAll(vs)
      ensures !ok ==> Partly(old(oobSer).value, oobSer.value, HandlesAll(vs))
      decreases vs, 0
    {
      if vs == [] { return true, done; }
      ok, out := Serialize(vs[0], done, cap);
      if ok {
        Assoc(done, Encode(vs[0]), EncodeAll(vs[1..]));
        Assoc(old(oobSer).value, Handles(vs[0]), HandlesAll(vs[1..]));
        ok, out := SerializeAll(vs[1..], out, cap);
        if !ok { PartlySecond(old(oobSer).value, oobSer.value, Handles(vs[0]), HandlesAll(vs[1..])); }
      } else {
        PartlyFirst(old(oobSer).value, oobSer.value, Handles(vs[0]), HandlesAll(vs[1..]));
      }
    }

    method Put(done: seq<Byte>, b: seq<Byte>, cap: Option<nat>) returns (ok: bool, out: seq<Byte>)
      ensures ok <==> Room(cap, done, b)
      ensures ok ==> out == done + b
    {
      ok := Room(cap, done, b);
      out := if ok then done + b else done;
    }

    /** One serialization; with a size limit configured, bincode first visits the whole value
        to measure it. */
    method SerializeInto(v: Value<Fd>, limit: Option<nat>) returns (ok: bool, encoded: seq<Byte>)
      requires oobSer.Some?
      modifies this`oobSer
      ensures oobSer.Some?
      ensures ok <==> Room(limit, [], Encode(v))
      ensures ok ==> encoded == Encode(v)
      ensures ok ==> oobSer.value == old(oobSer).value + (if limit.None? then Handles(v) else Handles(v) + Handles(v))
      ensures !ok ==> Partly(old(oobSer).value, oobSer.value, Handles(v))
    {
      encoded := [];
      if limit.Some? {
        ok, encoded := Serialize(v, [], limit);
        if !ok { return; }
        Assoc(old(oobSer).value, Handles(v), Handles(v));
      }
      ok, encoded := Serialize(v, [], None);
    }

    /** `gather_fds_to_vec`: whatever was visited is handed over, error or not, and the slot is
        empty again. */
    method GatherFdsToVec(given: seq<Fd>, v: Value<Fd>, limit: Option<nat>) returns (ok: bool, encoded: seq<Byte>, out: seq<Fd>)
      requires oobSer.None?
      modifies this`oobSer
      ensures oobSer.None?
      ensures ok <==> Room(limit, [], Encode(v))
      ensures ok ==> encoded == Encode(v)
      ensures ok ==> out == given + (if limit.None? then Handles(v) else Handles(v) + Handles(v))
      ensures !ok ==> Partly(given, out, Handles(v))
    {
      oobSer := Some(given);
      ok, encoded := SerializeInto(v, limit);
      out := oobSer.value;
      oobSer := None;
    }

    // -------------------------------------------------------------- deserializing

    /** Where `Decode` says the descriptors `hs` end up: in the value or still in the slot on
        success; closed or still in the slot on failure. */
    ghost predicate Deserialized(p: Parsed<Value<Fd>, Fd>, hs: seq<Fd>, t0: map<Fd, Obj>, c0: seq<Fd>, r: Result<Read, DecodeError>)
      reads this
    {
      match p
      case Parsed(v, rest, left) =>
        r == Success(Read(v, rest)) && oobDe == Some(left) && table == t0 && closes == c0
      case Rejected(e, left) =>
        r == Failure(e) && oobDe == Some(left) && |left| <= |hs| && Closed(Gone(hs, left), t0, c0, table, closes)
    }

    /** `passfd::deserialize`: take ownership of the next descriptor. */
    method DeserializeFd() returns (r: Result<Fd, DecodeError>)
      requires oobDe.Some?
      modifies this`oobDe
      ensures r == if old(oobDe).value == [] then Failure(TooFewFds) else Success(old(oobDe).value[0])
      ensures oobDe == Some(if old(oobDe).value == [] then [] else old(oobDe).value[1..])
    {
      if oobDe.value == [] { return Failure(TooFewFds); }
      r := Success(oobDe.value[0]);
      oobDe := Some(oobDe.value[1..]);
    }

    /** Fail after values holding `owned` were built out of `owned + mid`: dropping them closes them. */
    method Unwind(owned: seq<Fd>, ghost mid: seq<Fd>, ghost left: seq<Fd>, ghost t0: map<Fd, Obj>, ghost c0: seq<Fd>)
      requires |left| <= |mid|
      requires Distinct(owned + mid) && forall x :: x in owned + mid ==> x in t0
      requires Closed(Gone(mid, left), t0, c0, table, closes)
      modifies this`table, this`closes
      ensures Closed(Gone(owned + mid, left), t0, c0, table, closes)
    {
      StillOwned(owned, mid, left, t0);
      GoneThen(owned, mid, left);
      ghost var t1, c1 := table, closes;
      DropAll(owned);
      ClosedThen(Gone(mid, left), owned, t0, c0, t1, c1, table, closes);
    }

    method Deserialize(s: Schema, b: seq<Byte>) returns (r: Result<Read, DecodeError>)
      requires oobDe.Some? && Owns(oobDe.value)
      modifies this`table, this`closes, this`oobDe
      ensures Deserialized(Decode(s, b, old(oobDe).value), old(oobDe).value, old(table), old(closes), r)
      decreases s, 1
    {
      match s
      case U8 =>
        r := if b == [] then Failure(Eof) else Success(Read(VU8(b[0]), b[1..]));
      case Raw(n) =>
        r := if |b| < n then Failure(Eof) else Success(Read(VRaw(b[..n]), b[n..]));
      case Bytes =>
        match DecodeVarint(b) {
          case NoNumber(e) => r := Failure(e);
          case Number(n, rest) => r := if |rest| < n then Failure(Eof) else Success(Read(VBytes(rest[..n]), rest[n..]));
        }
      case ListOf(e) =>
        match DecodeVarint(b) {
          case NoNumber(err) => r := Failure(err);
          case Number(n, rest) => r := DeserializeList(e, n, rest);
        }
      case OptionOf(e) =>
        if b == [] { r := Failure(Eof); }
        else if b[0] == 0 { r := Success(Read(VNone, b[1..])); }
        else if b[0] == 1 {
          r := Deserialize(e, b[1..]);
          if r.Success? { r := Success(Read(VSome(r.value.value), r.value.rest)); }
        } else { r := Failure(BadTag); }
      case Enum(vs) =>
        match DecodeVarint(b) {
          case NoNumber(err) => r := Failure(err);
          case Number(i, rest) =>
            if i >= |vs| || i >= U32 { r := Failure(BadVariant); }
            else {
              r := Deserialize(vs[i], rest);
              if r.Success? { r := Success(Read(VEnum(i, r.value.value), r.value.rest)); }
            }
        }
      case Unit => r := Success(Read(VUnit, b));
      case Pair(a, c) => r := DeserializePair(a, c, b);
      case FdLeaf =>
        var fd := DeserializeFd();
        r := if fd.Success? then Success(Read(VFd(fd.value), b)) else Failure(fd.error);
    }

    method DeserializePair(a: Schema, c: Schema, b: seq<Byte>) returns (r: Result<Read, DecodeError>)
      requires oobDe.Some? && Owns(oobDe.value)
      modifies this`table, this`closes, this`oobDe
      ensures Deserialized(Decode(Pair(a, c), b, old(oobDe).value), old(oobDe).value, old(table), old(closes), r)
      decreases Pair(a, c), 0
    {
      ghost var hs := oobDe.value;
      r := Deserialize(a, b);
      DecodeAccounts(a, b, hs);
      if r.Success? {
        var x, rest := r.value.value, r.value.rest;
        ghost var mid := oobDe.value;
        assert hs == Handles(x) + mid;
        assert Owns(mid) by { SecondOwned(Handles(x), mid); }
        r := Deserialize(c, rest);
        if r.Success? {
          r := Success(Read(VPair(x, r.value.value), r.value.rest));
        } else {
          Unwind(Handles(x), mid, oobDe.value, old(table), old(closes));
        }
      }
    }

    method DeserializeList(e: Schema, n: nat, b: seq<Byte>) returns (r: Result<Read, DecodeError>)
      requires oobDe.Some? && Owns(oobDe.value)
      modifies this`table, this`closes, this`oobDe
      ensures Deserialized(DecodeList(e, n, [], b, old(oobDe).value), old(oobDe).value, old(table), old(closes), r)
      decreases e, 2
    {
      var items: seq<Value<Fd>>, rest := [], b;
      ghost var hs := oobDe.value;
      var i := 0;
      while i < n
        invariant i <= n && |items| == i
        invariant table == old(table) && closes == old(closes)
        invariant oobDe.Some? && hs == HandlesAll(items) + oobDe.value
        invariant DecodeList(e, n, [], b, hs) == DecodeList(e, n - i, items, rest, oobDe.value)
      {
        ghost var mid := oobDe.value;
        assert Owns(mid) by { SecondOwned(HandlesAll(items), mid); }
        DecodeAccounts(e, rest, mid);
        r := Deserialize(e, rest);
        if r.Failure? {
          Unwind(HandlesAll(items), mid, oobDe.value, old(table), old(closes));
          return;
        }
        var x := r.value.value;
        HandlesAllSnoc(items, x);
        Assoc(HandlesAll(items), Handles(x), oobDe.value);
        items, rest := items + [x], r.value.rest;
        i := i + 1;
      }
      r := Success(Read(VList(items), rest));
    }

    /** `scatter_fds_from_vec_deque` around one whole deserialization (trailing bytes refused):
        what no leaf took is handed back, error or not, and the slot is empty again. */
    method ScatterFdsFromVecDeque(fds: seq<Fd>, s: Schema, b: seq<Byte>) returns (r: Result<Value<Fd>, DecodeError>, unused: seq<Fd>)
      requires oobDe.None? && Owns(fds)
      modifies this`table, this`closes, this`oobDe
      ensures oobDe.None?
      ensures r == Whole(Decode(s, b, fds)) && unused == Decode(s, b, fds).left
      ensures IsSuffix(unused, fds)
      ensures r.Success? ==> fds == Handles(r.value) + unused && table == old(table) && closes == old(closes)
      ensures r.Failure? ==> Closed(Gone(fds, unused), old(table), old(closes), table, closes)
    {
      oobDe := Some(fds);
      DecodeAccounts(s, b, fds);
      var read := Deserialize(s, b);
      unused := oobDe.value;
      oobDe := None;
      match read
      case Failure(e) => r := Failure(e);
      case Success(both) =>
        var v, rest := both.value, both.rest;
        assert fds == Handles(v) + unused;
        if rest == [] {
          r := Success(v);
        } else {
          r := Failure(TrailingBytes);
          StillOwned(Handles(v), unused, unused, table);
          GoneThen(Handles(v), unused, unused);
          DropAll(Handles(v));
        }
    }
  }

  lemma {:induction false} HandlesAllSnoc<H>(vs: seq<Value<H>>, x: Value<H>)
    ensures HandlesAll(vs + [x]) == HandlesAll(vs) + Handles(x)
  {
    if vs == [] {
      assert (vs + [x])[1..] == [];
    } else {
      HandlesAllSnoc(vs[1..], x);
      assert (vs + [x])[1..] == vs[1..] + [x];
      Assoc(Handles(vs[0]), HandlesAll(vs[1..]), Handles(x));
    }
  }
}
