/**
  systemd socket activation: the environment protocol of sd_listen_fds(3), and the iterator
  over the descriptors it announces, whose names are one colon-separated list.
*/
module SocketActivation {
  import opened Wrappers
  import opened Wire
  import opened Packets
  import opened Proto

  const I32_MAX: int := 0x7FFF_FFFF
  const I32_MIN: int := -0x8000_0000
  const U32_MAX: nat := 0xFFFF_FFFF
  const USIZE_MAX: nat := 0xFFFF_FFFF_FFFF_FFFF
  const COLON: Byte := 58
  const LISTEN_FDS_START := 3

  // ---------------------------------------------------------------- splitting at colons

  /** The colon-separated segments of a list of names; there is always at least one. */
  function Split(b: seq<Byte>): (r: seq<seq<Byte>>)
    ensures |r| >= 1
  {
    if b == [] then [[]]
    else
      var rest := Split(b[1..]);
      if b[0] == COLON then [[]] + rest else [[b[0]] + rest[0]] + rest[1..]
  }

  /** The name that belongs to position `i`: none if the segment is empty or missing. */
  function NameAt(segments: seq<seq<Byte>>, i: nat): Option<seq<Byte>> {
    if i < |segments| && segments[i] != [] then Some(segments[i]) else None
  }

  /** Where the first colon is, or the end. */
  function FirstColon(b: seq<Byte>): (r: nat)
    ensures r <= |b|
  {
    if b == [] || b[0] == COLON then 0 else 1 + FirstColon(b[1..])
  }

  lemma {:induction false} SplitAtColon(b: seq<Byte>)
    ensures var c := FirstColon(b);
            Split(b) == if c < |b| then [b[..c]] + Split(b[c + 1..]) else [b]
  {
    if b != [] && b[0] != COLON {
      var c, t := FirstColon(b), b[1..];
      SplitAtColon(t);
      assert b == [b[0]] + t;
      assert b[..c] == [b[0]] + t[..c - 1];
      if c < |b| { assert b[c + 1..] == t[c..]; }
    }
  }

  function Join(segments: seq<seq<Byte>>): seq<Byte>
    requires segments != []
  {
    if |segments| == 1 then segments[0] else segments[0] + [COLON] + Join(segments[1..])
  }

  lemma {:induction false} FirstColonAppend(s: seq<Byte>, more: seq<Byte>)
    requires COLON !in s
    ensures FirstColon(s + [COLON] + more) == |s| && FirstColon(s) == |s|
  {
    if s != [] {
      assert (s + [COLON] + more)[1..] == s[1..] + [COLON] + more;
      FirstColonAppend(s[1..], more);
    }
  }

  /** Splitting undoes joining. */
  lemma {:induction false} SplitJoin(segments: seq<seq<Byte>>)
    requires segments != [] && forall s :: s in segments ==> COLON !in s
    ensures Split(Join(segments)) == segments
  {
    var b := Join(segments);
    SplitAtColon(b);
    if |segments| == 1 {
      FirstColonAppend(segments[0], []);
      assert segments == [segments[0]];
    } else {
      FirstColonAppend(segments[0], Join(segments[1..]));
      assert b[..|segments[0]|] == segments[0] && b[|segments[0]| + 1..] == Join(segments[1..]);
      SplitJoin(segments[1..]);
      assert segments == [segments[0]] + segments[1..];
    }
  }

  // ---------------------------------------------------------------- the iterator, as values

  /** The fields of `FdIter`. */
  datatype Cursor = Cursor(next: int, count: nat, names: seq<Byte>, offset: nat)

  datatype Item = Item(fd: int, name: Option<seq<Byte>>)

  datatype Call = Finished | Yields(item: Item) | Panics

  /** `checks`: built with overflow checks. `corrected`: the offset is clamped to what is left of
      the names, as the comment beside the code intends, and not to their whole length. */
  datatype Variant = Variant(checks: bool, corrected: bool)

  /** Adding one to an `i32` that wraps. */
  function Bump(n: int): int { if n == I32_MAX then I32_MIN else n + 1 }

  function Plus(n: int, k: nat): int
    decreases k
  {
    if k == 0 then n else Plus(Bump(n), k - 1)
  }

  function Advance(v: Variant, c: Cursor): nat
    requires c.offset <= |c.names|
  {
    var rest := c.names[c.offset..];
    c.offset + Min(FirstColon(rest) + 1, if v.corrected then |rest| else |c.names|)
  }

  function ItemAt(c: Cursor): Item
    requires c.offset <= |c.names|
  {
    var rest := c.names[c.offset..];
    var name := rest[..FirstColon(rest)];
    Item(c.next, if name == [] then None else Some(name))
  }

  /** One call of `next`: its outcome and the fields after it. */
  function CallNext(v: Variant, c: Cursor): (Call, Cursor) {
    if c.count == 0 then (Finished, c)
    else if c.offset > |c.names| then (Panics, c)
    else
      var c1 := c.(offset := Advance(v, c), count := c.count - 1);
      if v.checks && c.next == I32_MAX then (Panics, c1)
      else (Yields(ItemAt(c)), c1.(next := Bump(c.next)))
  }

  datatype Outcome = Outcome(items: seq<Item>, panicked: bool)

  /** Calling `next` until it returns nothing or panics. */
  function Run(v: Variant, c: Cursor): Outcome
    decreases c.count
  {
    match CallNext(v, c)
    case (Finished, _) => Outcome([], false)
    case (Panics, _) => Outcome([], true)
    case (Yields(item), c1) =>
      var rest := Run(v, c1);
      Outcome([item] + rest.items, rest.panicked)
  }

  // ---------------------------------------------------------------- agreement with splitting

  /** Calls the names allow, from `offset` on: all of them if there are no names, and otherwise
      one for every segment, with one to spare if the only segment is still untouched. */
  predicate NamesAllow(v: Variant, c: Cursor)
    requires c.offset <= |c.names|
  {
    var segments := Split(c.names[c.offset..]);
    || v.corrected || c.names == []
    || c.count <= |segments|
    || (c.offset == 0 && |segments| == 1 && c.count <= 2)
  }

  /** `start + count` must fit, if arithmetic is checked. */
  predicate NumbersAllow(v: Variant, c: Cursor) { v.checks ==> c.next + c.count <= I32_MAX }

  /** The i-th item carries the i-th descriptor number and the name of the i-th segment. */
  ghost predicate Agree(items: seq<Item>, next: int, segments: seq<seq<Byte>>) {
    forall k :: 0 <= k < |items| ==> items[k] == Item(Plus(next, k), NameAt(segments, k))
  }

  lemma AgreeCons(item: Item, items: seq<Item>, next: int, segments: seq<seq<Byte>>, later: seq<seq<Byte>>)
    requires item == Item(next, NameAt(segments, 0)) && Agree(items, Bump(next), later)
    requires forall k: nat :: NameAt(segments, k + 1) == NameAt(later, k)
    ensures Agree([item] + items, next, segments)
  {
    forall k | 0 <= k < |items| + 1 ensures ([item] + items)[k] == Item(Plus(next, k), NameAt(segments, k)) {
      if k > 0 {
        assert items[k - 1] == Item(Plus(Bump(next), k - 1), NameAt(later, k - 1));
        assert NameAt(segments, (k - 1) + 1) == NameAt(later, k - 1);
      }
    }
  }

  /** After one item the cursor is at the next segment, or past the last. */
  lemma NextSegment(v: Variant, c: Cursor)
    requires c.count > 0 && c.offset <= |c.names|
    ensures var segments, o := Split(c.names[c.offset..]), Advance(v, c);
            && ItemAt(c).name == NameAt(segments, 0)
            && (|segments| > 1 ==> c.offset < o <= |c.names| && Split(c.names[o..]) == segments[1..])
            && (|segments| == 1 && (v.corrected || c.names == [] || c.offset == 0) ==> o == |c.names|)
            && (|segments| == 1 && !v.corrected && c.names != [] && c.offset > 0 ==> o == |c.names| + 1)
  {
    var rest := c.names[c.offset..];
    SplitAtColon(rest);
    var colon := FirstColon(rest);
    if colon < |rest| {
      assert rest[colon + 1..] == c.names[c.offset + colon + 1..];
    } else {
      assert rest[..colon] == rest;
    }
  }

  /** A whole run from anywhere: the items agree with splitting, and it panics exactly when the
      names or the numbers run out. */
  lemma {:induction false} RunFrom(v: Variant, c: Cursor)
    requires c.offset <= |c.names| && c.next <= I32_MAX
    ensures var r := Run(v, c);
            && Agree(r.items, c.next, Split(c.names[c.offset..]))
            && (!r.panicked <==> NamesAllow(v, c) && NumbersAllow(v, c))
            && (!r.panicked ==> |r.items| == c.count)
    decreases c.count
  {
    if c.count > 0 && !(v.checks && c.next == I32_MAX) {
      var segments := Split(c.names[c.offset..]);
      var c1 := CallNext(v, c).1;
      NextSegment(v, c);
      if c1.offset <= |c.names| {
        RunFrom(v, c1);
        var later := Split(c.names[c1.offset..]);
        if |segments| == 1 { assert c.names[c1.offset..] == []; }
        AgreeCons(ItemAt(c), Run(v, c1).items, c.next, segments, later);
      }
    }
  }

  lemma PlusIsSum(n: int, k: nat)
    requires n + k <= I32_MAX
    ensures Plus(n, k) == n + k
    decreases k
  {
    if k > 0 { PlusIsSum(n + 1, k - 1); }
  }

  /** Without overflow checks the numbers wrap as 32-bit two's complement. */
  lemma {:induction false} PlusWraps(n: int, k: nat)
    requires -0x8000_0000 <= n <= 0x7FFF_FFFF
    ensures Plus(n, k) == (n + k + 0x8000_0000) % 0x1_0000_0000 - 0x8000_0000
    decreases k
  {
    if k > 0 {
      PlusWraps(Bump(n), k - 1);
      if n == I32_MAX { assert (n + k + 0x8000_0000) % 0x1_0000_0000 == (Bump(n) + (k - 1) + 0x8000_0000) % 0x1_0000_0000; }
    }
  }

  /** The iterator that `parse` makes. */
  function Fresh(start: int, count: nat, names: seq<Byte>): Cursor { Cursor(start, count, names, 0) }

  /** The code as it is, with overflow checks: all `count` calls succeed exactly if the numbers
      fit and there are no names, as many names as descriptors, or a single one for two. */
  lemma RunAsWritten(start: int, count: nat, names: seq<Byte>)
    requires start <= I32_MAX
    ensures var r, segments := Run(Variant(true, false), Fresh(start, count, names)), Split(names);
            && (!r.panicked <==> start + count <= I32_MAX
                                 && (names == [] || count <= |segments| || (|segments| == 1 && count <= 2)))
            && (!r.panicked ==> |r.items| == count
                                && forall i :: 0 <= i < count ==> r.items[i] == Item(start + i, NameAt(segments, i)))
  {
    var c := Fresh(start, count, names);
    assert names[0..] == names;
    RunFrom(Variant(true, false), c);
    var r := Run(Variant(true, false), c);
    if !r.panicked {
      forall i | 0 <= i < count ensures r.items[i] == Item(start + i, NameAt(Split(names), i)) { PlusIsSum(start, i); }
    }
  }

  /** With the clamp corrected the condition on the names vanishes. */
  lemma RunCorrected(start: int, count: nat, names: seq<Byte>)
    requires start <= I32_MAX
    ensures var r := Run(Variant(true, true), Fresh(start, count, names));
            && (!r.panicked <==> start + count <= I32_MAX)
            && (!r.panicked ==> |r.items| == count
                                && forall i :: 0 <= i < count ==> r.items[i] == Item(start + i, NameAt(Split(names), i)))
  {
    var c := Fresh(start, count, names);
    assert names[0..] == names;
    RunFrom(Variant(true, true), c);
    var r := Run(Variant(true, true), c);
    if !r.panicked {
      forall i | 0 <= i < count ensures r.items[i] == Item(start + i, NameAt(Split(names), i)) { PlusIsSum(start, i); }
    }
  }

  /** The code as it is goes past the end of "a:b" on the third call. */
  lemma OffsetPassesEnd()
    ensures Run(Variant(true, false), Fresh(3, 3, [97, COLON, 98])).panicked
    ensures !Run(Variant(true, true), Fresh(3, 3, [97, COLON, 98])).panicked
  {
    var names := [97, COLON, 98];
    assert names == Join([[97], [98]]);
    SplitJoin([[97], [98]]);
    RunAsWritten(3, 3, names);
    RunCorrected(3, 3, names);
  }

  // ---------------------------------------------------------------- the iterator, as an object

  class FdIter {
    var next: int
    var count: nat
    var names: seq<Byte>
    var nameOffset: nat
    const checks: bool

    function Fields(): Cursor
      reads this
    {
      Cursor(next, count, names, nameOffset)
    }

    constructor (next: int, count: nat, names: seq<Byte>, checks: bool)
      ensures Fields() == Cursor(next, count, names, 0) && this.checks == checks
    {
      this.next, this.count, this.names, this.nameOffset := next, count, names, 0;
      this.checks := checks;
    }

    method Next() returns (r: Call)
      modifies this
      ensures (r, Fields()) == CallNext(Variant(checks, false), old(Fields()))
    {
      if count == 0 { return Finished; }
      if nameOffset > |names| { return Panics; }
      var rest := names[nameOffset..];
      var colon := FirstColon(rest);
      var name := if colon == 0 then None else Some(rest[..colon]);
      nameOffset := nameOffset + Min(colon + 1, |names|);
      var fd := next;
      count := count - 1;
      if checks && next == I32_MAX { return Panics; }
      next := Bump(next);
      return Yields(Item(fd, name));
    }
  }

  const SESSIONS_NAME := Ascii("tere-sessions")

  /** The last descriptor of that name. */
  function LastNamed(items: seq<Item>, name: seq<Byte>): Option<int> {
    if items == [] then None
    else if items[|items| - 1].name == Some(name) then Some(items[|items| - 1].fd)
    else LastNamed(items[..|items| - 1], name)
  }

  lemma LastNamedSnoc(items: seq<Item>, item: Item, name: seq<Byte>)
    ensures LastNamed(items + [item], name) == if item.name == Some(name) then Some(item.fd) else LastNamed(items, name)
  {
    assert (items + [item])[..|items|] == items;
  }

  /** `found` is the last item of that name, or there is none. */
  ghost predicate IsLast(items: seq<Item>, name: seq<Byte>, found: Option<int>) {
    match found
    case None => forall i :: 0 <= i < |items| ==> items[i].name != Some(name)
    case Some(fd) =>
      exists i :: 0 <= i < |items| && items[i] == Item(fd, Some(name)) && forall j :: i < j < |items| ==> items[j].name != Some(name)
  }

  lemma {:induction false} LastNamedIsLast(items: seq<Item>, name: seq<Byte>)
    ensures IsLast(items, name, LastNamed(items, name))
  {
    if items != [] {
      var before := items[..|items| - 1];
      LastNamedIsLast(before, name);
      assert items[|items| - 1].name == Some(name) ==> items[|items| - 1] == Item(items[|items| - 1].fd, Some(name));
      assert forall i :: 0 <= i < |before| ==> items[i] == before[i];
    }
  }

  /** Look for the listening socket among the announced descriptors. */
  method FindListener(sockets: FdIter) returns (listener: Option<int>, panicked: bool)
    modifies sockets
    ensures var r := Run(Variant(sockets.checks, false), old(sockets.Fields()));
            && panicked == r.panicked
            && (!panicked ==> listener == LastNamed(r.items, SESSIONS_NAME) && IsLast(r.items, Ascii("tere-sessions"), listener))
  {
    listener := None;
    ghost var v := Variant(sockets.checks, false);
    ghost var seen: seq<Item> := [];
    while true
      invariant listener == LastNamed(seen, SESSIONS_NAME)
      invariant var r, now := Run(v, old(sockets.Fields())), Run(v, sockets.Fields());
                r.items == seen + now.items && r.panicked == now.panicked
      decreases sockets.count
    {
      var call := sockets.Next();
      match call {
        case Finished =>
          assert seen + [] == seen;
          LastNamedIsLast(seen, SESSIONS_NAME);
          return listener, false;
        case Panics => return None, true;
        case Yields(item) =>
          Assoc(seen, [item], Run(v, sockets.Fields()).items);
          LastNamedSnoc(seen, item, SESSIONS_NAME);
          seen := seen + [item];
          if item.name == Some(SESSIONS_NAME) { listener := Some(item.fd); }
      }
    }
  }

  // ---------------------------------------------------------------- the environment

  /** A value of the environment; whether it is Unicode is decided elsewhere. */
  datatype EnvValue = Text(bytes: seq<Byte>) | Raw(bytes: seq<Byte>)

  datatype VarError = Absent | NotText(bytes: seq<Byte>)

  datatype EnvError = NotPresent | Var(error: VarError) | NotInt

  datatype ParseError = Env(key: string, source: EnvError)

  type Environment = map<string, EnvValue>

  function Lookup(env: Environment, key: string): Result<seq<Byte>, VarError> {
    if key !in env then Failure(Absent)
    else match env[key]
         case Text(bytes) => Success(bytes)
         case Raw(bytes) => Failure(NotText(bytes))
  }

  predicate IsDigit(b: Byte) { 48 <= b <= 57 }

  function Digits(s: seq<Byte>): Option<nat> {
    if s == [] then Some(0)
    else if !IsDigit(s[|s| - 1]) then None
    else match Digits(s[..|s| - 1])
         case None => None
         case Some(n) => Some(10 * n + (s[|s| - 1] - 48))
  }

  /** `str::parse` for an unsigned integer type: an optional plus sign, at least one digit, and
      a value that fits. */
  function ParseUnsigned(s: seq<Byte>, max: nat): Option<nat> {
    var digits := if s != [] && s[0] == 43 then s[1..] else s;
    if digits == [] then None
    else match Digits(digits)
         case None => None
         case Some(n) => if n <= max then Some(n) else None
  }

  function Decimal(n: nat): (s: seq<Byte>)
    ensures s != [] && IsDigit(s[0])
  {
    if n < 10 then [48 + n] else Decimal(n / 10) + [48 + n % 10]
  }

  lemma {:induction false} DigitsOfDecimal(n: nat)
    ensures Digits(Decimal(n)) == Some(n)
  {
    var s := Decimal(n);
    if n < 10 {
      assert s[..|s| - 1] == [];
    } else {
      DigitsOfDecimal(n / 10);
      assert s[..|s| - 1] == Decimal(n / 10);
    }
  }

  /** A decimal numeral is read back exactly if it fits the type. */
  lemma ParseDecimal(n: nat, max: nat)
    ensures ParseUnsigned(Decimal(n), max) == if n <= max then Some(n) else None
  {
    DigitsOfDecimal(n);
  }

  function Zeros(k: nat): seq<Byte> { if k == 0 then [] else [48] + Zeros(k - 1) }

  lemma {:induction false} ZerosMore(k: nat)
    ensures Zeros(k) + [48] == Zeros(k + 1) && Digits(Zeros(k)) == Some(0)
    ensures k > 0 ==> Zeros(k)[0] == 48
  {
    if k > 0 {
      ZerosMore(k - 1);
      Assoc([48], Zeros(k - 1), [48]);
      assert (Zeros(k - 1) + [48])[..|Zeros(k - 1)|] == Zeros(k - 1);
    }
  }

  /** An optional plus sign, any number of zeros, and the decimal numeral of `n`. */
  ghost predicate IsNumeral(s: seq<Byte>, n: nat) {
    exists k :: s == Zeros(k) + Decimal(n) || s == [43] + (Zeros(k) + Decimal(n))
  }

  lemma {:induction false} DigitsPadded(k: nat, n: nat)
    ensures Digits(Zeros(k) + Decimal(n)) == Some(n)
  {
    var s := Zeros(k) + Decimal(n);
    if n < 10 {
      ZerosMore(k);
      assert s[..|s| - 1] == Zeros(k);
    } else {
      DigitsPadded(k, n / 10);
      assert s[..|s| - 1] == Zeros(k) + Decimal(n / 10);
    }
  }

  lemma {:induction false} DigitsShape(s: seq<Byte>, n: nat) returns (k: nat)
    requires s != [] && Digits(s) == Some(n)
    ensures s == Zeros(k) + Decimal(n)
  {
    var t, d := s[..|s| - 1], s[|s| - 1];
    assert s == t + [d];
    if t == [] {
      assert Decimal(n) == [d];
      k := 0;
    } else {
      var m := Digits(t).value;
      var j := DigitsShape(t, m);
      if m == 0 {
        ZerosMore(j);
        k := j + 1;
      } else {
        Assoc(Zeros(j), Decimal(m), [d]);
        k := j;
      }
    }
  }

  /** Exactly the numerals of the numbers that fit are read, and as those numbers. */
  lemma ParseExact(s: seq<Byte>, max: nat, n: nat)
    ensures ParseUnsigned(s, max) == Some(n) <==> n <= max && IsNumeral(s, n)
  {
    var digits := if s != [] && s[0] == 43 then s[1..] else s;
    if digits != [] && Digits(digits) == Some(n) {
      var k := DigitsShape(digits, n);
      assert digits != s ==> s == [43] + digits;
    }
    forall k | s == Zeros(k) + Decimal(n) || s == [43] + (Zeros(k) + Decimal(n)) ensures digits != [] && Digits(digits) == Some(n) {
      ZerosMore(k);
      DigitsPadded(k, n);
    }
  }

  /** The digits are the usual ones, the highest first. */
  lemma DecimalLayout()
    ensures Decimal(1234567890) == [49, 50, 51, 52, 53, 54, 55, 56, 57, 48]
  {
    assert Decimal(1234) == [49, 50, 51, 52];
    assert Decimal(1234567) == [49, 50, 51, 52, 53, 54, 55];
  }

  function ParseNumber(v: Result<seq<Byte>, VarError>, max: nat): Result<nat, EnvError> {
    match v
    case Failure(e) => Failure(Var(e))
    case Success(s) => match ParseUnsigned(s, max) case None => Failure(NotInt) case Some(n) => Success(n)
  }

  /** Is the announcement for process `pid`? */
  function ForUs(listenPid: Result<nat, EnvError>, pid: nat): Result<bool, ParseError> {
    match listenPid
    case Success(n) => Success(n == pid)
    case Failure(NotPresent) => Success(true)
    case Failure(e) => Failure(Env("LISTEN_PID", e))
  }

  /** What `parse` makes of the variables, given whether the announcement is for us. */
  function Announced(env: Environment, forUs: Result<bool, ParseError>): Result<Cursor, ParseError> {
    match forUs
    case Failure(e) => Failure(e)
    case Success(false) => Success(Cursor(-1, 0, [], 0))
    case Success(true) =>
      match ParseNumber(Lookup(env, "LISTEN_FDS"), USIZE_MAX)
      case Failure(e) => Failure(Env("LISTEN_FDS", e))
      case Success(n) =>
        Success(Fresh(LISTEN_FDS_START, n, if "LISTEN_FDNAMES" in env then env["LISTEN_FDNAMES"].bytes else []))
  }

  function AsWritten(env: Environment, pid: nat): Result<Cursor, ParseError> {
    Announced(env, ForUs(ParseNumber(Lookup(env, "LISTEN_PID"), U32_MAX), pid))
  }

  /** With the missing variable classified as the later match expects it: an announcement
      without `LISTEN_PID` is for us. */
  function AsIntended(env: Environment, pid: nat): Result<Cursor, ParseError> {
    if "LISTEN_PID" !in env then Announced(env, ForUs(Failure(NotPresent), pid)) else AsWritten(env, pid)
  }

  /** The variable is text that says `n`, a number up to `max`. */
  ghost predicate Reads(env: Environment, key: string, max: nat, n: nat) {
    key in env && env[key].Text? && n <= max && IsNumeral(env[key].bytes, n)
  }

  /** The variable says no such number, and this is why. */
  ghost predicate Unread(env: Environment, key: string, max: nat, e: EnvError) {
    if key !in env then e == Var(Absent)
    else
      match env[key]
      case Raw(bytes) => e == Var(NotText(bytes))
      case Text(bytes) => e == NotInt && forall n: nat :: n <= max ==> !IsNumeral(bytes, n)
  }

  lemma NumberExact(env: Environment, key: string, max: nat)
    ensures forall n: nat :: Reads(env, key, max, n) <==> ParseNumber(Lookup(env, key), max) == Success(n)
    ensures forall e :: Unread(env, key, max, e) <==> ParseNumber(Lookup(env, key), max) == Failure(e)
  {
    if key in env && env[key].Text? {
      forall n: nat ensures ParseUnsigned(env[key].bytes, max) == Some(n) <==> n <= max && IsNumeral(env[key].bytes, n) {
        ParseExact(env[key].bytes, max, n);
      }
    }
  }

  /** Every environment: it is refused for its `LISTEN_PID`, or it is for another process and
      nothing is delivered, or it is refused for its `LISTEN_FDS`, or so many descriptors from 3 on
      are announced, with the names there are. */
  lemma ParseTable(env: Environment, pid: nat)
    ensures forall e :: Unread(env, "LISTEN_PID", 0xFFFF_FFFF, e) ==> AsWritten(env, pid) == Failure(Env("LISTEN_PID", e))
    ensures forall q: nat :: Reads(env, "LISTEN_PID", 0xFFFF_FFFF, q) && q != pid ==>
                          AsWritten(env, pid).Success? && forall v :: Run(v, AsWritten(env, pid).value) == Outcome([], false)
    ensures Reads(env, "LISTEN_PID", 0xFFFF_FFFF, pid) ==>
              && (forall e :: Unread(env, "LISTEN_FDS", 0xFFFF_FFFF_FFFF_FFFF, e) ==> AsWritten(env, pid) == Failure(Env("LISTEN_FDS", e)))
              && (forall n: nat :: Reads(env, "LISTEN_FDS", 0xFFFF_FFFF_FFFF_FFFF, n) ==>
                                AsWritten(env, pid) == Success(Cursor(3, n, if "LISTEN_FDNAMES" in env then env["LISTEN_FDNAMES"].bytes else [], 0)))
  {
    NumberExact(env, "LISTEN_PID", 0xFFFF_FFFF);
    NumberExact(env, "LISTEN_FDS", 0xFFFF_FFFF_FFFF_FFFF);
  }

  /** Only an announcement for this process is ever delivered, or panics. */
  lemma DeliveredIsForUs(env: Environment, pid: nat, v: Variant)
    requires AsWritten(env, pid).Success? && Run(v, AsWritten(env, pid).value) != Outcome([], false)
    ensures Reads(env, "LISTEN_PID", 0xFFFF_FFFF, pid)
  {
    ParseTable(env, pid);
    NumberExact(env, "LISTEN_PID", 0xFFFF_FFFF);
  }

  /** The arm for a missing `LISTEN_PID` is never taken: such an environment is always refused,
      and differs from what was intended exactly there. */
  lemma MissingPid(env: Environment, pid: nat)
    ensures AsWritten(env, pid) == AsIntended(env, pid) <==> "LISTEN_PID" in env
    ensures "LISTEN_PID" !in env ==> AsWritten(env, pid) == Failure(Env("LISTEN_PID", Var(Absent)))
    ensures "LISTEN_PID" !in env ==>
              forall n: nat :: Reads(env, "LISTEN_FDS", 0xFFFF_FFFF_FFFF_FFFF, n) ==>
                AsIntended(env, pid) == Success(Cursor(3, n, if "LISTEN_FDNAMES" in env then env["LISTEN_FDNAMES"].bytes else [], 0))
  {
    NumberExact(env, "LISTEN_FDS", 0xFFFF_FFFF_FFFF_FFFF);
    if "LISTEN_PID" !in env {
      assert "LISTEN_PID"[7] != "LISTEN_FDS"[7];
    }
  }

  const VARIABLES: set<string> := {"LISTEN_PID", "LISTEN_FDS", "LISTEN_FDNAMES"}

  class Activation {
    var env: Environment
    const pid: nat
    const unsetEnv: bool
    const checks: bool

    constructor (env: Environment, pid: nat, checks: bool)
      ensures this.env == env && this.pid == pid && this.checks == checks && unsetEnv
    {
      this.env, this.pid, this.checks, this.unsetEnv := env, pid, checks, true;
    }

    /** The variables are removed whatever the result. */
    method Parse() returns (r: Result<FdIter, ParseError>)
      modifies this
      ensures env == if unsetEnv then old(env) - {"LISTEN_PID", "LISTEN_FDS", "LISTEN_FDNAMES"} else old(env)
      ensures match AsWritten(old(env), pid)
              case Failure(e) => r == Failure(e)
              case Success(c) => r.Success? && fresh(r.value) && r.value.Fields() == c && r.value.checks == checks
      ensures forall q: nat :: Reads(old(env), "LISTEN_PID", 0xFFFF_FFFF, q) && q != pid ==>
                            r.Success? && Run(Variant(checks, false), r.value.Fields()) == Outcome([], false)
      ensures r.Success? && Run(Variant(checks, false), r.value.Fields()) != Outcome([], false) ==>
                Reads(old(env), "LISTEN_PID", 0xFFFF_FFFF, pid)
    {
      ParseTable(env, pid);
      NumberExact(env, "LISTEN_PID", 0xFFFF_FFFF);
      var listenPid := Lookup(env, "LISTEN_PID");
      var listenFds := Lookup(env, "LISTEN_FDS");
      var names := if "LISTEN_FDNAMES" in env then env["LISTEN_FDNAMES"].bytes else [];
      if unsetEnv { env := env - VARIABLES; }

      var forUs := ForUs(ParseNumber(listenPid, U32_MAX), pid);
      if forUs.Failure? { return Failure(forUs.error); }
      if !forUs.value {
        var none := new FdIter(-1, 0, [], checks);
        return Success(none);
      }
      var number := ParseNumber(listenFds, USIZE_MAX);
      if number.Failure? { return Failure(Env("LISTEN_FDS", number.error)); }
      var iter := new FdIter(LISTEN_FDS_START, number.value, names, checks);
      return Success(iter);
    }
  }

  lemma AnnouncedCursor(env: Environment, pid: nat, count: nat, names: seq<Byte>)
    requires pid <= U32_MAX && count <= USIZE_MAX
    requires Lookup(env, "LISTEN_PID") == Success(Decimal(pid)) && Lookup(env, "LISTEN_FDS") == Success(Decimal(count))
    requires Lookup(env, "LISTEN_FDNAMES") == Success(names)
    ensures AsWritten(env, pid) == Success(Fresh(LISTEN_FDS_START, count, names))
  {
    ParseDecimal(pid, U32_MAX);
    ParseDecimal(count, USIZE_MAX);
  }

  /** End to end: what systemd announces for this process, a name for every descriptor, is what
      the iterator delivers, in order, without a panic. */
  lemma AnnouncedIsDelivered(env: Environment, pid: nat, names: seq<seq<Byte>>)
    requires pid <= U32_MAX && 0 < |names| <= I32_MAX - LISTEN_FDS_START
    requires forall s :: s in names ==> COLON !in s
    requires Lookup(env, "LISTEN_PID") == Success(Decimal(pid)) && Lookup(env, "LISTEN_FDS") == Success(Decimal(|names|))
    requires Lookup(env, "LISTEN_FDNAMES") == Success(Join(names))
    ensures AsWritten(env, pid).Success?
    ensures var r := Run(Variant(true, false), AsWritten(env, pid).value);
            && !r.panicked && |r.items| == |names|
            && forall i :: 0 <= i < |names| ==> r.items[i] == Item(LISTEN_FDS_START + i, if names[i] == [] then None else Some(names[i]))
  {
    AnnouncedCursor(env, pid, |names|, Join(names));
    SplitJoin(names);
    RunAsWritten(LISTEN_FDS_START, |names|, Join(names));
  }
}
