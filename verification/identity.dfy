/**
  The protocol identity of a build: a hash over a byte stream that describes the source tree.
  The stream determines the tree, so two builds with one identity either have the same tree or
  exhibit a collision of the hash.
*/
module Identity {
  import opened Wrappers
  import opened Wire
  import opened Proto
  import opened Handshakes
  import opened HandshakeRuns

  /** BLAKE3. Nothing is assumed of it. */
  type Hash = seq<Byte> -> Digest

  type Path = p: seq<Byte> | 0 !in p witness []

  /** What the walk over the tree meets. */
  datatype Found =
    | Symlink(path: Path, target: Path)
    | Directory(path: Path)
    | Regular(path: Path, contents: seq<Byte>)
    | Unreadable

  /** One described entry: directories are not described, and of a file only its hash is. */
  datatype Entry = Link(path: Path, target: Path) | File(path: Path, digest: Digest)

  const TAG_LINK: Byte := 76
  const TAG_FILE: Byte := 70

  // ---------------------------------------------------------------- the stream

  function Print(e: Entry): seq<Byte> {
    match e
    case Link(path, target) => path + [0] + [TAG_LINK] + target + [0]
    case File(path, digest) => path + [0] + [TAG_FILE] + digest + [0]
  }

  function Stream(es: seq<Entry>): seq<Byte> {
    if es == [] then [] else Print(es[0]) + Stream(es[1..])
  }

  /** Everything before the first NUL, if there is one. */
  function UpToNul(b: seq<Byte>): (r: Option<Path>)
    ensures r.Some? ==> r.value + [0] <= b
    ensures r.None? <==> 0 !in b
  {
    if b == [] then None
    else if b[0] == 0 then Some([])
    else match UpToNul(b[1..])
         case None => None
         case Some(rest) =>
           assert [b[0]] + rest + [0] == [b[0]] + (rest + [0]);
           Some([b[0]] + rest)
  }

  /** One entry off the front of `b`, and what is left. */
  function ParseEntry(b: seq<Byte>): (r: Option<(Entry, seq<Byte>)>)
    ensures r.Some? ==> |r.value.1| < |b|
  {
    match UpToNul(b)
    case None => None
    case Some(path) =>
      var rest := b[|path| + 1..];
      if rest == [] then None
      else if rest[0] == TAG_LINK then
        (match UpToNul(rest[1..])
         case None => None
         case Some(target) => Some((Link(path, target), rest[1..][|target| + 1..])))
      else if rest[0] == TAG_FILE && |rest| >= 34 && rest[33] == 0 then
        Some((File(path, rest[1..33]), rest[34..]))
      else None
  }

  function Parse(b: seq<Byte>): Option<seq<Entry>>
    decreases |b|
  {
    if b == [] then Some([])
    else match ParseEntry(b)
         case None => None
         case Some((e, rest)) =>
           (match Parse(rest)
            case None => None
            case Some(es) => Some([e] + es))
  }

  // ---------------------------------------------------------------- the stream determines the entries

  lemma Regroup(path: seq<Byte>, tag: Byte, body: seq<Byte>, rest: seq<Byte>)
    ensures path + [0] + [tag] + body + [0] + rest == path + [0] + ([tag] + (body + [0] + rest))
  {
  }

  lemma AfterNul(p: seq<Byte>, rest: seq<Byte>)
    ensures (p + [0] + rest)[|p| + 1..] == rest
  {
  }

  lemma AfterTag(tag: Byte, rest: seq<Byte>)
    ensures ([tag] + rest)[0] == tag && ([tag] + rest)[1..] == rest
  {
  }

  lemma AfterDigest(digest: Digest, rest: seq<Byte>)
    ensures var tail := [TAG_FILE] + (digest + [0] + rest);
            |tail| >= 34 && tail[0] == TAG_FILE && tail[1..33] == digest && tail[33] == 0 && tail[34..] == rest
  {
  }

  lemma {:induction false} UpToNulAppend(p: Path, rest: seq<Byte>)
    ensures UpToNul(p + [0] + rest) == Some(p)
  {
    var b := p + [0] + rest;
    if p == [] {
      assert b[0] == 0;
    } else {
      assert b[0] == p[0] && b[1..] == p[1..] + [0] + rest;
      UpToNulAppend(p[1..], rest);
      assert [p[0]] + p[1..] == p;
    }
  }

  lemma ParseLink(path: Path, target: Path, rest: seq<Byte>)
    ensures ParseEntry(Print(Link(path, target)) + rest) == Some((Link(path, target), rest))
  {
    var tail := [TAG_LINK] + (target + [0] + rest);
    var b := path + [0] + tail;
    Regroup(path, TAG_LINK, target, rest);
    UpToNulAppend(path, tail);
    AfterNul(path, tail);
    AfterTag(TAG_LINK, target + [0] + rest);
    UpToNulAppend(target, rest);
    AfterNul(target, rest);
  }

  lemma ParseFile(path: Path, digest: Digest, rest: seq<Byte>)
    ensures ParseEntry(Print(File(path, digest)) + rest) == Some((File(path, digest), rest))
  {
    var tail := [TAG_FILE] + (digest + [0] + rest);
    var b := path + [0] + tail;
    Regroup(path, TAG_FILE, digest, rest);
    UpToNulAppend(path, tail);
    AfterNul(path, tail);
    AfterDigest(digest, rest);
  }

  lemma ParseOne(e: Entry, rest: seq<Byte>)
    ensures ParseEntry(Print(e) + rest) == Some((e, rest))
  {
    match e
    case Link(path, target) => ParseLink(path, target, rest);
    case File(path, digest) => ParseFile(path, digest, rest);
  }

  lemma ParseStep(b: seq<Byte>, e: Entry, rest: seq<Byte>, es: seq<Entry>)
    requires ParseEntry(b) == Some((e, rest)) && Parse(rest) == Some(es)
    ensures Parse(b) == Some([e] + es)
  {
  }

  lemma HeadTail(es: seq<Entry>)
    requires es != []
    ensures [es[0]] + es[1..] == es
  {
  }

  /** The parser undoes the printer, although digests may contain NUL bytes. */
  lemma {:induction false} ParsePrint(es: seq<Entry>)
    ensures Parse(Stream(es)) == Some(es)
  {
    if es != [] {
      ParseOne(es[0], Stream(es[1..]));
      ParsePrint(es[1..]);
      ParseStep(Stream(es), es[0], Stream(es[1..]), es[1..]);
      HeadTail(es);
    }
  }

  lemma CutAtNul(b: seq<Byte>, p: Path)
    requires UpToNul(b) == Some(p)
    ensures |p| < |b| && b == p + [0] + b[|p| + 1..]
  {
    PrefixCut(b, p + [0]);
  }

  lemma PrefixCut(b: seq<Byte>, q: seq<Byte>)
    requires q <= b
    ensures b == q + b[|q|..]
  {
  }

  lemma CutFile(rest: seq<Byte>)
    requires |rest| >= 34 && rest[0] == TAG_FILE && rest[33] == 0
    ensures rest == [TAG_FILE] + (rest[1..33] + [0] + rest[34..])
  {
  }

  lemma PrintParsedEntry(b: seq<Byte>)
    requires ParseEntry(b).Some?
    ensures b == Print(ParseEntry(b).value.0) + ParseEntry(b).value.1
  {
    var path := UpToNul(b).value;
    var rest := b[|path| + 1..];
    CutAtNul(b, path);
    if rest[0] == TAG_LINK {
      var target := UpToNul(rest[1..]).value;
      CutAtNul(rest[1..], target);
      assert rest == [TAG_LINK] + rest[1..];
      Regroup(path, TAG_LINK, target, rest[1..][|target| + 1..]);
    } else {
      CutFile(rest);
      Regroup(path, TAG_FILE, rest[1..33], rest[34..]);
    }
  }

  /** And the printer undoes the parser: whatever parses is the stream of what it parses to. */
  lemma {:induction false} PrintParse(b: seq<Byte>)
    requires Parse(b).Some?
    ensures Stream(Parse(b).value) == b
    decreases |b|
  {
    if b != [] {
      PrintParsedEntry(b);
      var (e, rest) := ParseEntry(b).value;
      PrintParse(rest);
      assert ([e] + Parse(rest).value)[1..] == Parse(rest).value;
    }
  }

  /** Two sequences of entries feed the hasher the same bytes only if they are equal. */
  lemma UniquelyDecodable(es: seq<Entry>, es': seq<Entry>)
    requires Stream(es) == Stream(es')
    ensures es == es'
  {
    ParsePrint(es);
    ParsePrint(es');
  }

  /** What the hasher is fed for a link from `a` to `b` and then a file `c`. */
  lemma StreamLayout(digest: Digest)
    ensures Stream([Link([97], [98]), File([99], digest)]) == [97, 0, 76, 98, 0, 99, 0, 70] + digest + [0]
  {
    var es: seq<Entry> := [Link([97], [98]), File([99], digest)];
    assert es[1..] == [File([99], digest)] && es[1..][1..] == [];
    assert Print(es[0]) == [97, 0, 76, 98, 0];
    assert Stream(es) == Print(es[0]) + (Print(es[1]) + Stream([]));
  }

  // ---------------------------------------------------------------- the identity

  function HexDigit(n: nat): Byte
    requires n < 16
  {
    if n < 10 then 48 + n else 87 + n
  }

  function Hex(b: seq<Byte>): seq<Byte> {
    if b == [] then [] else [HexDigit(b[0] / 16), HexDigit(b[0] % 16)] + Hex(b[1..])
  }

  lemma HexAlphabet(n: nat)
    requires n < 16
    ensures Ascii("0123456789abcdef")[n] == HexDigit(n)
  {
    assert Ascii("0123456789abcdef") == [48, 49, 50, 51, 52, 53, 54, 55, 56, 57, 97, 98, 99, 100, 101, 102];
  }

  lemma HexCons(b: seq<Byte>, i: nat)
    requires b != [] && 2 * i < |Hex(b)|
    ensures |Hex(b)| == 2 + |Hex(b[1..])|
    ensures i > 0 ==> Hex(b)[2 * i] == Hex(b[1..])[2 * i - 2]
    ensures i > 0 && 2 * i + 1 < |Hex(b)| ==> Hex(b)[2 * i + 1] == Hex(b[1..])[2 * i - 1]
  {
  }

  /** Two digits a byte, the high one first. */
  lemma {:induction false} HexDigits(b: seq<Byte>, i: nat)
    ensures |Hex(b)| == 2 * |b|
    ensures i < |b| ==>
              && Hex(b)[2 * i] == Ascii("0123456789abcdef")[b[i] / 16]
              && Hex(b)[2 * i + 1] == Ascii("0123456789abcdef")[b[i] % 16]
  {
    if b != [] {
      HexDigits(b[1..], if i == 0 then 0 else i - 1);
      if i == 0 {
        HexAlphabet(b[0] / 16);
        HexAlphabet(b[0] % 16);
      } else if i < |b| {
        HexCons(b, i);
      }
    }
  }

  lemma {:induction false} HexInjective(a: seq<Byte>, b: seq<Byte>)
    requires Hex(a) == Hex(b)
    ensures a == b
  {
    if a == [] || b == [] {
      assert |Hex(a)| == |Hex(b)|;
    } else {
      var x, y := Hex(a), Hex(b);
      assert x[0] == HexDigit(a[0] / 16) && x[1] == HexDigit(a[0] % 16) && x[2..] == Hex(a[1..]);
      assert y[0] == HexDigit(b[0] / 16) && y[1] == HexDigit(b[0] % 16) && y[2..] == Hex(b[1..]);
      assert a[0] == 16 * (a[0] / 16) + a[0] % 16 && b[0] == 16 * (b[0] / 16) + b[0] % 16;
      HexInjective(a[1..], b[1..]);
      assert a == [a[0]] + a[1..] && b == [b[0]] + b[1..];
    }
  }

  /** The described part of the tree, with file contents. */
  function Described(walk: seq<Found>): (r: seq<Found>)
    ensures forall f :: f in r ==> f.Symlink? || f.Regular?
  {
    if walk == [] then []
    else if walk[0].Symlink? || walk[0].Regular? then [walk[0]] + Described(walk[1..])
    else Described(walk[1..])
  }

  function EntryOf(hash: Hash, f: Found): Entry
    requires f.Symlink? || f.Regular?
  {
    match f
    case Symlink(path, target) => Link(path, target)
    case Regular(path, contents) => File(path, hash(contents))
  }

  function Entries(hash: Hash, walk: seq<Found>): seq<Entry> {
    if walk == [] then []
    else if walk[0].Symlink? || walk[0].Regular? then [EntryOf(hash, walk[0])] + Entries(hash, walk[1..])
    else Entries(hash, walk[1..])
  }

  function ProtocolIdentity(hash: Hash, walk: seq<Found>): seq<Byte> {
    Hex(hash(Stream(Entries(hash, walk))))
  }

  /** An incremental hasher. */
  class Hasher {
    const hash: Hash
    var state: seq<Byte>

    constructor (hash: Hash)
      ensures this.hash == hash && state == []
    {
      this.hash := hash;
      state := [];
    }

    method Update(bytes: seq<Byte>)
      modifies this
      ensures state == old(state) + bytes
    {
      state := state + bytes;
    }

    method Finalize() returns (digest: Digest)
      ensures digest == hash(state)
    {
      digest := hash(state);
    }
  }

  lemma {:induction false} StreamSnoc(es: seq<Entry>, e: Entry)
    ensures Stream(es + [e]) == Stream(es) + Print(e)
  {
    if es == [] {
      assert es + [e] == [e];
      assert Stream([e]) == Print(e) + Stream([e][1..]);
    } else {
      assert (es + [e])[1..] == es[1..] + [e];
      StreamSnoc(es[1..], e);
      Assoc(Print(es[0]), Stream(es[1..]), Print(e));
    }
  }

  lemma {:induction false} EntriesSnoc(hash: Hash, walk: seq<Found>, f: Found)
    ensures Entries(hash, walk + [f])
            == if f.Symlink? || f.Regular? then Entries(hash, walk) + [EntryOf(hash, f)] else Entries(hash, walk)
  {
    if walk == [] {
      assert (walk + [f])[1..] == [];
    } else {
      assert (walk + [f])[1..] == walk[1..] + [f];
      EntriesSnoc(hash, walk[1..], f);
    }
  }

  /** Hash a tree as the walk delivers it; anything unreadable is a panic (`None`). */
  method HashProtocolIdentity(hash: Hash, walk: seq<Found>) returns (r: Option<seq<Byte>>)
    ensures r.None? <==> Unreadable in walk
    ensures r.Some? ==> r.value == ProtocolIdentity(hash, walk)
  {
    var hasher := new Hasher(hash);
    for i := 0 to |walk|
      invariant hasher.hash == hash
      invariant Unreadable !in walk[..i]
      invariant hasher.state == Stream(Entries(hash, walk[..i]))
    {
      assert walk[..i + 1] == walk[..i] + [walk[i]];
      EntriesSnoc(hash, walk[..i], walk[i]);
      if walk[i].Unreadable? { return None; }
      if !walk[i].Directory? { Describe(hasher, walk[i], Entries(hash, walk[..i])); }
    }
    assert walk[..|walk|] == walk;
    var digest := hasher.Finalize();
    r := Some(Hex(digest));
  }

  /** Feed one entry to the hasher, piece by piece. */
  method Describe(hasher: Hasher, f: Found, ghost before: seq<Entry>)
    requires f.Symlink? || f.Regular?
    requires hasher.state == Stream(before)
    modifies hasher
    ensures hasher.state == Stream(before + [EntryOf(hasher.hash, f)])
  {
    StreamSnoc(before, EntryOf(hasher.hash, f));
    hasher.Update(f.path);
    hasher.Update([0]);
    var tag, body: seq<Byte> := TAG_LINK, [];
    match f {
      case Symlink(_, target) =>
        body := target;
      case Regular(_, contents) =>
        tag := TAG_FILE;
        body := HashFile(hasher.hash, contents);
    }
    hasher.Update([tag]);
    hasher.Update(body);
    hasher.Update([0]);
    Nested(Stream(before), f.path, tag, body);
  }

  method HashFile(hash: Hash, contents: seq<Byte>) returns (digest: Digest)
    ensures digest == hash(contents)
  {
    var fileHasher := new Hasher(hash);
    fileHasher.Update(contents);
    assert fileHasher.state == contents;
    digest := fileHasher.Finalize();
  }

  lemma Nested(before: seq<Byte>, path: seq<Byte>, tag: Byte, body: seq<Byte>)
    ensures before + path + [0] + [tag] + body + [0] == before + (path + [0] + [tag] + body + [0])
  {
  }

  // ---------------------------------------------------------------- one identity, one tree

  /** Two different inputs with one hash. */
  predicate Collision(hash: Hash, a: seq<Byte>, b: seq<Byte>) { a != b && hash(a) == hash(b) }

  /** Two files of the trees, at one place, are a collision. */
  ghost predicate FilesCollide(hash: Hash, walk: seq<Found>, walk': seq<Found>) {
    exists i, j :: 0 <= i < |walk| && 0 <= j < |walk'| && FilesCollideAt(hash, walk[i], walk'[j])
  }

  /** Two files of one path with different contents and one hash. */
  predicate FilesCollideAt(hash: Hash, f: Found, f': Found) {
    f.Regular? && f'.Regular? && f.path == f'.path && Collision(hash, f.contents, f'.contents)
  }

  lemma {:induction false} EntriesDetermineTree(hash: Hash, walk: seq<Found>, walk': seq<Found>)
    requires Entries(hash, walk) == Entries(hash, walk')
    ensures Described(walk) == Described(walk') || FilesCollide(hash, walk, walk')
    decreases |walk| + |walk'|
  {
    if walk != [] && !walk[0].Symlink? && !walk[0].Regular? {
      EntriesDetermineTree(hash, walk[1..], walk');
      CollideAfterSkip(hash, walk, walk');
    } else if walk' != [] && !walk'[0].Symlink? && !walk'[0].Regular? {
      EntriesDetermineTree(hash, walk, walk'[1..]);
      CollideAfterSkip(hash, walk', walk);
    } else if walk != [] && walk' != [] {
      EntriesCons(hash, walk, walk');
      EntriesDetermineTree(hash, walk[1..], walk'[1..]);
      HeadsDetermined(hash, walk, walk');
    }
  }

  lemma HeadsDetermined(hash: Hash, walk: seq<Found>, walk': seq<Found>)
    requires walk != [] && (walk[0].Symlink? || walk[0].Regular?)
    requires walk' != [] && (walk'[0].Symlink? || walk'[0].Regular?)
    requires EntryOf(hash, walk[0]) == EntryOf(hash, walk'[0])
    requires Described(walk[1..]) == Described(walk'[1..]) || FilesCollide(hash, walk[1..], walk'[1..])
    ensures Described(walk) == Described(walk') || FilesCollide(hash, walk, walk')
  {
    if walk[0] != walk'[0] {
      assert FilesCollideAt(hash, walk[0], walk'[0]);
    } else if FilesCollide(hash, walk[1..], walk'[1..]) {
      CollideInTail(hash, walk, walk');
    }
  }

  lemma CollideInTail(hash: Hash, walk: seq<Found>, walk': seq<Found>)
    requires walk != [] && walk' != [] && FilesCollide(hash, walk[1..], walk'[1..])
    ensures FilesCollide(hash, walk, walk')
  {
    var i, j :| 0 <= i < |walk[1..]| && 0 <= j < |walk'[1..]| && FilesCollideAt(hash, walk[1..][i], walk'[1..][j]);
    assert FilesCollideAt(hash, walk[i + 1], walk'[j + 1]);
  }

  lemma CollideAfterSkip(hash: Hash, walk: seq<Found>, walk': seq<Found>)
    requires walk != []
    ensures FilesCollide(hash, walk[1..], walk') ==> FilesCollide(hash, walk, walk')
    ensures FilesCollide(hash, walk', walk[1..]) ==> FilesCollide(hash, walk', walk)
  {
    if FilesCollide(hash, walk[1..], walk') {
      var i, j :| 0 <= i < |walk[1..]| && 0 <= j < |walk'| && FilesCollideAt(hash, walk[1..][i], walk'[j]);
      assert FilesCollideAt(hash, walk[i + 1], walk'[j]);
    }
    if FilesCollide(hash, walk', walk[1..]) {
      var i, j :| 0 <= i < |walk'| && 0 <= j < |walk[1..]| && FilesCollideAt(hash, walk'[i], walk[1..][j]);
      assert FilesCollideAt(hash, walk'[i], walk[j + 1]);
    }
  }

  lemma EntriesCons(hash: Hash, walk: seq<Found>, walk': seq<Found>)
    requires Entries(hash, walk) == Entries(hash, walk')
    requires walk != [] && (walk[0].Symlink? || walk[0].Regular?)
    requires walk' != [] && (walk'[0].Symlink? || walk'[0].Regular?)
    ensures EntryOf(hash, walk[0]) == EntryOf(hash, walk'[0])
    ensures Entries(hash, walk[1..]) == Entries(hash, walk'[1..])
  {
    var es, es' := Entries(hash, walk), Entries(hash, walk');
    assert es[0] == EntryOf(hash, walk[0]) && es'[0] == EntryOf(hash, walk'[0]);
    assert es[1..] == Entries(hash, walk[1..]) && es'[1..] == Entries(hash, walk'[1..]);
  }

  /** Equal identities: the trees are equal up to directories, or two of their files collide, or
      the two streams do. */
  lemma IdentityDeterminesTree(hash: Hash, walk: seq<Found>, walk': seq<Found>)
    requires ProtocolIdentity(hash, walk) == ProtocolIdentity(hash, walk')
    ensures || Described(walk) == Described(walk')
            || FilesCollide(hash, walk, walk')
            || Collision(hash, Stream(Entries(hash, walk)), Stream(Entries(hash, walk')))
  {
    var es, es' := Entries(hash, walk), Entries(hash, walk');
    HexInjective(hash(Stream(es)), hash(Stream(es')));
    if Stream(es) == Stream(es') {
      UniquelyDecodable(es, es');
      EntriesDetermineTree(hash, walk, walk');
    }
  }

  /** Directories are invisible: the identity is that of the described part. */
  lemma {:induction false} DirectoriesInvisible(hash: Hash, walk: seq<Found>)
    ensures Entries(hash, Described(walk)) == Entries(hash, walk)
  {
    if walk != [] {
      DirectoriesInvisible(hash, walk[1..]);
      if walk[0].Symlink? || walk[0].Regular? {
        assert Described(walk)[1..] == Described(walk[1..]);
      }
    }
  }

  /** End to end: when a client built from one tree completes its handshake, on either side of a
      connection, its peer is a server of the same service, built from the same tree; or one of
      three kinds of collision is at hand: of the keyed derivation, of the identity streams, or of
      two files. */
  lemma BuildAgreement(kdf: Kdf, hash: Hash, states: seq<Meeting>, events: seq<(bool, Event)>, i: nat, who: bool,
                       walk: seq<Found>, walk': seq<Found>)
    requires IsRun(kdf, states, events) && i < |states|
    requires Side(states[i], who).role == Client && Side(states[i], who).status == Over(Success(()))
    requires Side(states[i], who).build == ProtocolIdentity(hash, walk)
    requires Side(states[i], !who).build == ProtocolIdentity(hash, walk')
    ensures Side(states[i], !who).role == Server && Side(states[i], !who).service == Side(states[i], who).service
    ensures || Described(walk) == Described(walk')
            || FilesCollide(hash, walk, walk')
            || Collision(hash, Stream(Entries(hash, walk)), Stream(Entries(hash, walk')))
            || KeyCollision(kdf, IntentOf(Side(states[i], who).service, Server), ProtocolIdentity(hash, walk),
                            IntentOf(Side(states[i], who).service, Server), ProtocolIdentity(hash, walk'))
  {
    ClientSuccess(kdf, states, events, i, who);
    if Side(states[i], who).build == Side(states[i], !who).build {
      IdentityDeterminesTree(hash, walk, walk');
    }
  }
}
