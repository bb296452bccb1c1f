/**
 fw-toolchain-legacy/ext4_dir_order.c: a readdir that hands out the entries of a directory in the
 order of their ext4 name hashes.

 Directory handles are numbers. What the real readdir still has to say about a handle is part of
 the state; names are strings of bytes without NUL.
 */
module DirOrder {
  import opened Topics

  type Name = seq<bv8>

  // ----- The hash -----

  datatype Words = Words(a: bv32, b: bv32, c: bv32, d: bv32)

  function Rol(x: bv32, s: bv6): bv32
    requires 0 < s < 32
  {
    (x << s) | (x >> (32 - s))
  }

  function F(x: bv32, y: bv32, z: bv32): bv32 { z ^ (x & (y ^ z)) }
  function G(x: bv32, y: bv32, z: bv32): bv32 { (x & y) + ((x ^ y) & z) }
  function H(x: bv32, y: bv32, z: bv32): bv32 { x ^ y ^ z }

  const K2: bv32 := 0x5A827999
  const K3: bv32 := 0x6ED9EBA1

  // Four rounds with one function, on words i, j, k, l of the block.
  function Rounds(f: (bv32, bv32, bv32) -> bv32, w: Words, x: Words, s: (bv6, bv6, bv6, bv6)): Words
    requires 0 < s.0 < 32 && 0 < s.1 < 32 && 0 < s.2 < 32 && 0 < s.3 < 32
  {
    var a := Rol(w.a + f(w.b, w.c, w.d) + x.a, s.0);
    var d := Rol(w.d + f(a, w.b, w.c) + x.b, s.1);
    var c := Rol(w.c + f(d, a, w.b) + x.c, s.2);
    var b := Rol(w.b + f(c, d, a) + x.d, s.3);
    Words(a, b, c, d)
  }

  // half_md4_transform.
  function HalfMd4(buf: Words, x: seq<bv32>): Words
    requires |x| == 8
  {
    var w1 := Rounds(F, buf, Words(x[0], x[1], x[2], x[3]), (3, 7, 11, 19));
    var w2 := Rounds(F, w1, Words(x[4], x[5], x[6], x[7]), (3, 7, 11, 19));
    var w3 := Rounds(G, w2, Words(x[1] + K2, x[3] + K2, x[5] + K2, x[7] + K2), (3, 5, 9, 13));
    var w4 := Rounds(G, w3, Words(x[0] + K2, x[2] + K2, x[4] + K2, x[6] + K2), (3, 5, 9, 13));
    var w5 := Rounds(H, w4, Words(x[3] + K3, x[7] + K3, x[2] + K3, x[6] + K3), (3, 9, 11, 15));
    var w6 := Rounds(H, w5, Words(x[1] + K3, x[5] + K3, x[0] + K3, x[4] + K3), (3, 9, 11, 15));
    Words(buf.a + w6.a, buf.b + w6.b, buf.c + w6.c, buf.d + w6.d)
  }

  // A char is signed.
  function SignExtend(b: bv8): bv32 {
    if b < 128 then b as bv32 else (b as bv32) | 0xFFFFFF00
  }

  function Pad(len: nat): bv32
    requires len < 0x8000_0000
  {
    var pad := (len as bv32) | ((len as bv32) << 8);
    pad | (pad << 16)
  }

  function Shift(val: bv32, b: bv8): bv32 { SignExtend(b) + (val << 8) }

  // Some bytes shifted into a word that held the padding.
  function Pack(pad: bv32, bytes: Name): bv32 {
    if bytes == [] then pad else Shift(Pack(pad, bytes[..|bytes| - 1]), bytes[|bytes| - 1])
  }

  // Word k of a block: four bytes of the name, the bytes left over, or padding.
  function BlockWord(msg: Name, len: nat, k: nat): bv32
    requires len <= |msg| && len < 0x8000_0000
  {
    var used := if len > 32 then 32 else len;
    if 4 * k + 4 <= used then Pack(Pad(len), msg[4 * k..4 * k + 4])
    else if 4 * k <= used then Pack(Pad(len), msg[4 * k..used])
    else Pad(len)
  }

  function Block(msg: Name, len: nat): (r: seq<bv32>)
    requires len <= |msg| && len < 0x8000_0000
    ensures |r| == 8
    ensures forall k :: 0 <= k < 8 ==> r[k] == BlockWord(msg, len, k)
  {
    seq(8, k requires 0 <= k < 8 => BlockWord(msg, len, k))
  }

  /**
   str2hashbuf, signed: however many bytes of the name are left, it fills exactly the eight words
   of the block.
   */
  method Str2Hashbuf(msg: Name, len: nat, buf: array<bv32>)
    requires len <= |msg| && len < 0x8000_0000 && buf.Length == 8
    modifies buf
    ensures buf[..] == Block(msg, len)
  {
    hide Pad, Pack, Shift, BlockWord;
    var num := 8;
    var pad := Pad(len);
    var val := pad;
    var next := 0;
    var used := if len > num * 4 then num * 4 else len;
    PackNothing(pad, msg, 0);
    for i := 0 to used
      invariant next == i / 4 && num == 8 - next
      invariant forall k :: 0 <= k < next ==> buf[k] == BlockWord(msg, len, k)
      invariant val == Pack(pad, msg[4 * next..i])
    {
      PackMore(pad, msg, 4 * next, i);
      val := Shift(val, msg[i]);
      if i % 4 == 3 {
        WordAt(msg, len, next);
        buf[next] := val;
        next := next + 1;
        val := pad;
        num := num - 1;
        PackNothing(pad, msg, i + 1);
      }
    }
    num := num - 1;
    if num >= 0 {
      WordAt(msg, len, next);
      buf[next] := val;
      next := next + 1;
    }
    num := num - 1;
    while num >= 0
      invariant -2 <= num && (num >= -1 ==> next + num == 7 && used / 4 < next) && (num == -2 ==> next == 8)
      invariant forall k :: 0 <= k < next ==> buf[k] == BlockWord(msg, len, k)
    {
      WordAt(msg, len, next);
      buf[next] := pad;
      next := next + 1;
      num := num - 1;
    }
  }

  lemma {:induction false} PackNothing(pad: bv32, msg: Name, i: nat)
    requires i <= |msg|
    ensures Pack(pad, msg[i..i]) == pad
  {
  }

  lemma {:induction false} WordAt(msg: Name, len: nat, k: nat)
    requires len <= |msg| && len < 0x8000_0000
    ensures var used := if len > 32 then 32 else len;
      BlockWord(msg, len, k) ==
        if 4 * k + 4 <= used then Pack(Pad(len), msg[4 * k..4 * k + 4])
        else if 4 * k <= used then Pack(Pad(len), msg[4 * k..used])
        else Pad(len)
  {
  }

  lemma {:induction false} PackMore(pad: bv32, msg: Name, from: nat, i: nat)
    requires from <= i < |msg|
    ensures Pack(pad, msg[from..i + 1]) == Shift(Pack(pad, msg[from..i]), msg[i])
  {
    hide Shift;
    assert msg[from..i + 1][..i - from] == msg[from..i];
  }

  const DEFAULT_BUF := Words(0x67452301, 0xEFCDAB89, 0x98BADCFE, 0x10325476)

  function Start(seed: Words): Words {
    if seed == Words(0, 0, 0, 0) then DEFAULT_BUF else seed
  }

  // The buffer after the blocks of a name.
  function HashFrom(buf: Words, name: Name): Words
    requires |name| < 0x8000_0000
    decreases |name|
  {
    if name == [] then buf
    else HashFrom(HalfMd4(buf, Block(name, |name|)), if |name| > 32 then name[32..] else [])
  }

  // What is left of a name from position p on.
  function Behind(name: Name, p: nat): (r: Name)
    ensures |r| <= |name|
  {
    if p < |name| then name[p..] else []
  }

  lemma {:induction false} AllBehind(name: Name)
    ensures Behind(name, 0) == name
  {
  }

  lemma {:induction false} HashStep(buf: Words, name: Name, p: nat)
    requires p < |name| < 0x8000_0000
    ensures HashFrom(buf, Behind(name, p)) ==
      HashFrom(HalfMd4(buf, Block(name[p..], |name| - p)), Behind(name, p + 32))
  {
    hide HalfMd4, Block;
    assert |name| - p > 32 ==> name[p..][32..] == name[p + 32..];
  }

  lemma {:induction false} HashEnd(buf: Words, name: Name, p: nat)
    requires |name| <= p && |name| < 0x8000_0000
    ensures HashFrom(buf, Behind(name, p)) == buf
  {
  }

  lemma {:induction false} StartIs(seed: Words)
    ensures Start(seed) ==
      if seed.a != 0 || seed.b != 0 || seed.c != 0 || seed.d != 0 then seed else DEFAULT_BUF
  {
  }

  function Major(word: bv32): bv32 {
    var m := word & 0xFFFFFFFE;
    if m == 0xFFFFFFFE then 0xFFFFFFFC else m
  }

  // The major hash is even and leaves out the value that ext4 keeps for the end of a directory.
  lemma {:induction false} MajorRange(word: bv32)
    ensures Major(word) & 1 == 0 && Major(word) <= 0xFFFFFFFC
  {
  }

  // dirhash.
  method Dirhash(name: Name, seed: Words) returns (major: bv32, minor: bv32)
    requires |name| < 0x8000_0000
    ensures var w := HashFrom(Start(seed), name); major == Major(w.b) && minor == w.c
    ensures major & 1 == 0 && major <= 0xFFFFFFFC
  {
    hide HalfMd4, Block, HashFrom, Start, Major, Behind;
    var buf := DEFAULT_BUF;
    if seed.a != 0 || seed.b != 0 || seed.c != 0 || seed.d != 0 {
      buf := seed;
    }
    StartIs(seed);
    var block := new bv32[8];
    var p := 0;
    AllBehind(name);
    while p < |name|
      invariant HashFrom(buf, Behind(name, p)) == HashFrom(Start(seed), name)
      decreases |name| - p
    {
      HashStep(buf, name, p);
      Str2Hashbuf(name[p..], |name| - p, block);
      buf := HalfMd4(buf, block[..]);
      p := p + 32;
    }
    HashEnd(buf, name, p);
    major := Major(buf.b);
    minor := buf.c;
    MajorRange(buf.b);
  }

  // ----- Entries and their order -----

  // Hashes are compared as numbers.
  datatype Entry = Entry(name: Name, major: nat, minor: nat, dot: int)

  // cmp_entry.
  function CmpEntry(x: Entry, y: Entry): int {
    if x.dot != y.dot then (if x.dot > y.dot then -1 else 1)
    else if x.major != y.major then (if x.major < y.major then -1 else 1)
    else if x.minor != y.minor then (if x.minor < y.minor then -1 else 1)
    else 0
  }

  /**
   cmp_entry is what qsort needs: swapping its arguments changes the sign, "not after" is
   transitive, and it finds two entries alike exactly if all three keys agree.
   */
  lemma {:induction false} CmpConsistent(x: Entry, y: Entry, z: Entry)
    ensures CmpEntry(x, y) == -CmpEntry(y, x)
    ensures CmpEntry(x, y) <= 0 && CmpEntry(y, z) <= 0 ==> CmpEntry(x, z) <= 0
    ensures CmpEntry(x, y) == 0 <==> x.dot == y.dot && x.major == y.major && x.minor == y.minor
  {
  }

  predicate Sorted(e: seq<Entry>) {
    forall i, j :: 0 <= i < j < |e| ==> CmpEntry(e[i], e[j]) <= 0
  }

  predicate Permutes(a: seq<Entry>, b: seq<Entry>) {
    multiset(a) == multiset(b)
  }

  // A sort with the contract of qsort: entries alike may come in any order.
  method Sort(e: seq<Entry>) returns (r: seq<Entry>)
    ensures Sorted(r) && Permutes(r, e)
  {
    hide Sorted, Permutes, CmpEntry;
    r := [];
    SortedNothing(e);
    for i := 0 to |e|
      invariant Sorted(r) && Permutes(r, e[..i])
    {
      var k: nat := |r|;
      while k > 0 && CmpEntry(r[k - 1], e[i]) > 0
        invariant k <= |r| && forall j :: k <= j < |r| ==> CmpEntry(e[i], r[j]) <= 0
      {
        CmpConsistent(r[k - 1], e[i], e[i]);
        k := k - 1;
      }
      SortedMore(e, i, r, k);
      r := InsertAt(r, k, e[i]);
    }
  }

  lemma {:induction false} SortedNothing(e: seq<Entry>)
    ensures Sorted([]) && Permutes([], e[..0]) && e[..|e|] == e
  {
  }

  lemma {:induction false} SortedMore(e: seq<Entry>, i: nat, r: seq<Entry>, k: nat)
    requires i < |e| && Sorted(r) && Permutes(r, e[..i]) && k <= |r|
    requires k > 0 ==> CmpEntry(r[k - 1], e[i]) <= 0
    requires forall j :: k <= j < |r| ==> CmpEntry(e[i], r[j]) <= 0
    ensures Sorted(InsertAt(r, k, e[i])) && Permutes(InsertAt(r, k, e[i]), e[..i + 1])
  {
    hide Sorted, CmpEntry, InsertAt;
    Inserted(r, k, e[i]);
    assert e[..i + 1] == e[..i] + [e[i]];
  }

  function InsertAt(r: seq<Entry>, k: nat, x: Entry): (s: seq<Entry>)
    requires k <= |r|
    ensures |s| == |r| + 1
    ensures forall i :: 0 <= i < |s| ==> s[i] == if i < k then r[i] else if i == k then x else r[i - 1]
  {
    seq(|r| + 1, i requires 0 <= i < |r| + 1 => if i < k then r[i] else if i == k then x else r[i - 1])
  }

  lemma {:induction false} Inserted(r: seq<Entry>, k: nat, x: Entry)
    requires k <= |r| && Sorted(r)
    requires k > 0 ==> CmpEntry(r[k - 1], x) <= 0
    requires forall j :: k <= j < |r| ==> CmpEntry(x, r[j]) <= 0
    ensures Sorted(InsertAt(r, k, x))
    ensures multiset(InsertAt(r, k, x)) == multiset(r) + multiset{x}
  {
    hide CmpEntry;
    InsertedBag(r, k, x);
    forall i | 0 <= i < k
      ensures CmpEntry(r[i], x) <= 0
    {
      assert i < k - 1 ==> CmpEntry(r[i], r[k - 1]) <= 0;
      CmpConsistent(r[i], r[k - 1], x);
    }
  }

  lemma {:induction false} InsertedBag(r: seq<Entry>, k: nat, x: Entry)
    requires k <= |r|
    ensures multiset(InsertAt(r, k, x)) == multiset(r) + multiset{x}
  {
    assert InsertAt(r, k, x) == r[..k] + [x] + r[k..];
    assert r == r[..k] + r[k..];
  }

  // ----- Whole directories -----

  function DotRank(name: Name): int {
    if name == [46] then 2 else if name == [46, 46] then 1 else 0
  }

  // What the entries take up in a directory block.
  function Total(names: seq<Name>): nat {
    if names == [] then 0
    else Total(names[..|names| - 1]) + (8 + |names[|names| - 1]| + 3) / 4 * 4
  }

  // block_size is unsigned, and so is what is left of it behind a checksum.
  function Room(blockSize: nat, csum: bool): nat
    requires blockSize < 0x1_0000_0000
  {
    if csum then (blockSize + 0x1_0000_0000 - 12) % 0x1_0000_0000 else blockSize
  }

  // A directory that fits one block is not indexed, and "." and ".." count as any other name there.
  predicate Indexed(names: seq<Name>, blockSize: nat, csum: bool)
    requires blockSize < 0x1_0000_0000
  {
    Total(names) > Room(blockSize, csum)
  }

  predicate AllShort(names: seq<Name>) {
    forall i :: 0 <= i < |names| ==> |names[i]| < 0x8000_0000
  }

  function EntryOf(seed: Words, name: Name, indexed: bool): Entry
    requires |name| < 0x8000_0000
  {
    var w := HashFrom(Start(seed), name);
    Entry(name, Major(w.b) as nat, w.c as nat, if indexed then DotRank(name) else 0)
  }

  function EntriesOf(seed: Words, names: seq<Name>, indexed: bool): (r: seq<Entry>)
    requires AllShort(names)
    ensures |r| == |names| && forall i :: 0 <= i < |r| ==> r[i] == EntryOf(seed, names[i], indexed)
  {
    seq(|names|, i requires 0 <= i < |names| => EntryOf(seed, names[i], indexed))
  }

  function NamesOf(e: seq<Entry>): (r: seq<Name>)
    ensures |r| == |e| && forall i :: 0 <= i < |r| ==> r[i] == e[i].name
  {
    seq(|e|, i requires 0 <= i < |e| => e[i].name)
  }

  // What load_seed finds in the environment.
  datatype Setup = Setup(haveSeed: bool, seed: Words, blockSize: nat, csum: bool)

  // One directory read in full and sorted, with a cursor.
  datatype Listing = Listing(dir: nat, e: seq<Entry>, pos: nat)

  // The first listing of a handle.
  function ListingOf(ls: seq<Listing>, dir: nat): (l: Option<Listing>)
    ensures l.Some? ==> l.value.dir == dir
  {
    if ls == [] then None else if ls[0].dir == dir then Some(ls[0]) else ListingOf(ls[1..], dir)
  }

  // "." and ".." first, then by ascending major hash, and by ascending minor hash where that is the same.
  predicate Ascending(p: seq<Entry>) {
    forall i, j :: 0 <= i < j < |p| ==>
      || p[i].dot > p[j].dot
      || (p[i].dot == p[j].dot && p[i].major < p[j].major)
      || (p[i].dot == p[j].dot && p[i].major == p[j].major && p[i].minor <= p[j].minor)
  }

  lemma {:induction false} SortedAscends(p: seq<Entry>)
    ensures Sorted(p) <==> Ascending(p)
  {
    if Ascending(p) {
      forall i, j | 0 <= i < j < |p| ensures CmpEntry(p[i], p[j]) <= 0 {}
    }
    if Sorted(p) {
      forall i, j | 0 <= i < j < |p|
        ensures || p[i].dot > p[j].dot
                || (p[i].dot == p[j].dot && p[i].major < p[j].major)
                || (p[i].dot == p[j].dot && p[i].major == p[j].major && p[i].minor <= p[j].minor)
      {
        assert CmpEntry(p[i], p[j]) <= 0;
      }
    }
  }

  // p is the directory in the order of its hashes.
  ghost predicate InHashOrder(setup: Setup, names: seq<Name>, p: seq<Entry>) {
    && setup.blockSize < 0x1_0000_0000 && AllShort(names) && Ascending(p)
    && Permutes(p, EntriesOf(setup.seed, names, Indexed(names, setup.blockSize, setup.csum)))
  }

  // What holds for one open handle: its listing, what the real readdir still has, what it had when
  // the handle was opened, and what has been handed out.
  ghost predicate HandleOk(setup: Setup, l: Option<Listing>, left: seq<Name>, names: seq<Name>, returned: seq<Name>) {
    && AllShort(names)
    && match l
       case None => returned + left == names && (setup.haveSeed ==> returned == [])
       case Some(l) =>
         && setup.haveSeed && l.pos <= |l.e| && left == []
         && InHashOrder(setup, names, l.e) && returned == NamesOf(l.e)[..l.pos]
  }

  // The preloaded library and the real readdir behind it, with what the handles had when they
  // were opened and what has been handed out since.
  datatype State = State(listings: seq<Listing>, left: map<nat, seq<Name>>, atOpen: map<nat, seq<Name>>,
                         returned: map<nat, seq<Name>>)

  ghost predicate StateOk(setup: Setup, s: State) {
    && setup.blockSize < 0x1_0000_0000 && s.left.Keys == s.atOpen.Keys == s.returned.Keys
    && (forall i, j :: 0 <= i < j < |s.listings| ==> s.listings[i].dir != s.listings[j].dir)
    && (forall i :: 0 <= i < |s.listings| ==> s.listings[i].dir in s.atOpen)
    && forall d :: d in s.atOpen ==> HandleOk(setup, ListingOf(s.listings, d), s.left[d], s.atOpen[d], s.returned[d])
  }

  lemma {:induction false} ListingAt(ls: seq<Listing>, i: nat)
    requires i < |ls| && forall j :: 0 <= j < i ==> ls[j].dir != ls[i].dir
    ensures ListingOf(ls, ls[i].dir) == Some(ls[i])
    decreases |ls|
  {
    if i > 0 { ListingAt(ls[1..], i - 1); }
  }

  lemma {:induction false} NoListing(ls: seq<Listing>, dir: nat)
    ensures ListingOf(ls, dir) == None <==> forall i :: 0 <= i < |ls| ==> ls[i].dir != dir
    decreases |ls|
  {
    if ls != [] && ls[0].dir != dir {
      NoListing(ls[1..], dir);
      assert forall i :: 1 <= i < |ls| ==> ls[i] == ls[1..][i - 1];
    }
  }

  // The cursor of one listing moves.
  lemma {:induction false} ListingMoved(ls: seq<Listing>, i: nat, l: Listing, d: nat)
    requires i < |ls| && l.dir == ls[i].dir && forall i, j :: 0 <= i < j < |ls| ==> ls[i].dir != ls[j].dir
    ensures ListingOf(ls[i := l], d) == if d == l.dir then Some(l) else ListingOf(ls, d)
    decreases |ls|
  {
    if i > 0 {
      ListingMoved(ls[1..], i - 1, l, d);
      assert ls[i := l][1..] == ls[1..][i - 1 := l];
    } else {
      assert ls[0 := l][1..] == ls[1..];
    }
  }

  lemma {:induction false} ListingDropped(ls: seq<Listing>, i: nat, d: nat)
    requires i < |ls| && d != ls[i].dir
    ensures ListingOf(ls[..i] + ls[i + 1..], d) == ListingOf(ls, d)
    decreases |ls|
  {
    hide ListingOf;
    ListingFirst(ls, d);
    var rest := ls[..i] + ls[i + 1..];
    if i > 0 {
      ListingDropped(ls[1..], i - 1, d);
      assert rest[1..] == ls[1..][..i - 1] + ls[1..][i..];
      ListingFirst(rest, d);
    } else {
      assert rest == ls[1..];
    }
  }

  lemma {:induction false} ListingFirst(ls: seq<Listing>, d: nat)
    requires ls != []
    ensures ListingOf(ls, d) == if ls[0].dir == d then Some(ls[0]) else ListingOf(ls[1..], d)
  {
  }

  // ----- The calls -----

  // A call, with what it returned.
  datatype Call = Opendir(dir: nat, names: seq<Name>) | Readdir(dir: nat, name: Option<Name>) | Closedir(dir: nat)

  // The first listing of the handle replaced, or taken out.
  function Relisted(ls: seq<Listing>, dir: nat, l: Option<Listing>): seq<Listing> {
    if ls == [] then []
    else if ls[0].dir == dir then (if l.Some? then [l.value] else []) + ls[1..]
    else [ls[0]] + Relisted(ls[1..], dir, l)
  }

  lemma {:induction false} RelistedAt(ls: seq<Listing>, i: nat, l: Option<Listing>)
    requires i < |ls| && forall j :: 0 <= j < i ==> ls[j].dir != ls[i].dir
    ensures Relisted(ls, ls[i].dir, l) == if l.Some? then ls[i := l.value] else ls[..i] + ls[i + 1..]
    decreases |ls|
  {
    RelistedFirst(ls, ls[i].dir, l);
    hide Relisted;
    if i > 0 {
      RelistedAt(ls[1..], i - 1, l);
      if l.Some? { BehindFirst(ls, i, l.value); } else { OutBehindFirst(ls, i); }
    }
  }

  lemma {:induction false} RelistedFirst(ls: seq<Listing>, dir: nat, l: Option<Listing>)
    requires ls != []
    ensures Relisted(ls, dir, l) == if ls[0].dir != dir then [ls[0]] + Relisted(ls[1..], dir, l)
                                    else if l.Some? then ls[0 := l.value] else ls[..0] + ls[1..]
  {
  }

  lemma {:induction false} BehindFirst(ls: seq<Listing>, i: nat, l: Listing)
    requires 0 < i < |ls|
    ensures [ls[0]] + ls[1..][i - 1 := l] == ls[i := l]
  {
  }

  lemma {:induction false} OutBehindFirst(ls: seq<Listing>, i: nat)
    requires 0 < i < |ls|
    ensures [ls[0]] + (ls[1..][..i - 1] + ls[1..][i..]) == ls[..i] + ls[i + 1..]
  {
  }

  lemma {:induction false} NotListed(ls: seq<Listing>, dir: nat)
    requires ListingOf(ls, dir) == None
    ensures Relisted(ls, dir, None) == ls
    decreases |ls|
  {
    if ls != [] { NotListed(ls[1..], dir); }
  }

  function Opened(s: State, dir: nat, names: seq<Name>): State {
    s.(left := s.left[dir := names], atOpen := s.atOpen[dir := names], returned := s.returned[dir := []])
  }

  function Closed(s: State, dir: nat): State {
    State(Relisted(s.listings, dir, None), s.left - {dir}, s.atOpen - {dir}, s.returned - {dir})
  }

  // The real readdir gives this result and leads to the second state.
  predicate Passes(s: State, dir: nat, r: Option<Name>, s': State)
    requires dir in s.left && dir in s.returned
  {
    var left := s.left[dir];
    if left == [] then r == None && s' == s
    else
      && r == Some(left[0])
      && s' == s.(left := s.left[dir := left[1..]], returned := s.returned[dir := s.returned[dir] + [left[0]]])
  }

  // A new listing in front of the others.
  function Listed(s: State, dir: nat, e: seq<Entry>): State {
    s.(listings := [Listing(dir, e, 0)] + s.listings, left := s.left[dir := []])
  }

  // The next entry of the handle's listing, or the end.
  predicate Hands(s: State, dir: nat, r: Option<Name>, s': State)
    requires dir in s.returned && ListingOf(s.listings, dir).Some?
  {
    var l := ListingOf(s.listings, dir).value;
    if l.pos >= |l.e| then r == None && s' == s
    else
      && r == Some(l.e[l.pos].name)
      && s' == s.(listings := Relisted(s.listings, dir, Some(l.(pos := l.pos + 1))),
                  returned := s.returned[dir := s.returned[dir] + [l.e[l.pos].name]])
  }

  /**
   What the calls do. A handle must not be open when opendir returns it, and the other two are for
   open handles. The first readdir of a handle sorts all that the real readdir has for it; equal
   entries may come in any order.
   */
  ghost predicate Steps(setup: Setup, s: State, c: Call, s': State) {
    match c
    case Opendir(dir, names) => dir !in s.atOpen && AllShort(names) && s' == Opened(s, dir, names)
    case Closedir(dir) => dir in s.atOpen && s' == Closed(s, dir)
    case Readdir(dir, r) =>
      dir in s.atOpen && dir in s.left && dir in s.returned && setup.blockSize < 0x1_0000_0000 &&
      if !setup.haveSeed then Passes(s, dir, r, s')
      else if ListingOf(s.listings, dir).Some? then Hands(s, dir, r, s')
      else AllShort(s.left[dir]) &&
           exists e :: InHashOrder(setup, s.left[dir], e) && Hands(Listed(s, dir, e), dir, r, s')
  }

  lemma {:induction false} OpenKeeps(setup: Setup, s: State, dir: nat, names: seq<Name>)
    requires StateOk(setup, s) && dir !in s.atOpen && AllShort(names)
    ensures StateOk(setup, Opened(s, dir, names))
  {
    hide HandleOk, AllShort;
    NoListing(s.listings, dir);
    Fresh(setup, names);
  }

  lemma {:induction false} CloseKeeps(setup: Setup, s: State, dir: nat)
    requires StateOk(setup, s) && dir in s.atOpen
    ensures StateOk(setup, Closed(s, dir))
  {
    hide HandleOk, ListingOf, Relisted;
    Unlisted(s.listings, dir);
  }

  lemma {:induction false} Unlisted(ls: seq<Listing>, dir: nat)
    requires forall i, j :: 0 <= i < j < |ls| ==> ls[i].dir != ls[j].dir
    ensures var r := Relisted(ls, dir, None);
      && (forall i, j :: 0 <= i < j < |r| ==> r[i].dir != r[j].dir)
      && (forall i :: 0 <= i < |r| ==> r[i].dir != dir && r[i] in ls)
      && forall d :: d != dir ==> ListingOf(r, d) == ListingOf(ls, d)
  {
    hide ListingOf, Relisted;
    NoListing(ls, dir);
    if i :| 0 <= i < |ls| && ls[i].dir == dir {
      RelistedAt(ls, i, None);
      forall d | d != dir ensures ListingOf(Relisted(ls, dir, None), d) == ListingOf(ls, d) {
        ListingDropped(ls, i, d);
      }
    } else {
      NotListed(ls, dir);
    }
  }

  lemma {:induction false} PassKeeps(setup: Setup, s: State, dir: nat, r: Option<Name>, s': State)
    requires StateOk(setup, s) && dir in s.atOpen && !setup.haveSeed && Passes(s, dir, r, s')
    ensures StateOk(setup, s') && (r.None? ==> |s.returned[dir]| == |s.atOpen[dir]|)
  {
    assert HandleOk(setup, ListingOf(s.listings, dir), s.left[dir], s.atOpen[dir], s.returned[dir]);
    hide AllShort;
    var was := s.left[dir];
    if was != [] { assert (s.returned[dir] + [was[0]]) + was[1..] == s.returned[dir] + was; }
  }

  lemma {:induction false} ListKeeps(setup: Setup, s: State, dir: nat, e: seq<Entry>)
    requires StateOk(setup, s) && dir in s.atOpen && setup.haveSeed && ListingOf(s.listings, dir) == None
    requires AllShort(s.left[dir]) && InHashOrder(setup, s.left[dir], e)
    ensures StateOk(setup, Listed(s, dir, e)) && ListingOf(Listed(s, dir, e).listings, dir).Some?
  {
    hide HandleOk, InHashOrder, AllShort;
    NoListing(s.listings, dir);
    Unread(setup, s.left[dir], s.atOpen[dir], s.returned[dir]);
    Made(setup, s.atOpen[dir], dir, e);
    assert ([Listing(dir, e, 0)] + s.listings)[1..] == s.listings;
  }

  lemma {:induction false} ListingReplaced(ls: seq<Listing>, dir: nat, l: Listing)
    requires forall i, j :: 0 <= i < j < |ls| ==> ls[i].dir != ls[j].dir
    requires ListingOf(ls, dir).Some? && l.dir == dir
    ensures var r := Relisted(ls, dir, Some(l));
      && |r| == |ls| && (forall i :: 0 <= i < |ls| ==> r[i].dir == ls[i].dir)
      && forall d :: ListingOf(r, d) == if d == dir then Some(l) else ListingOf(ls, d)
  {
    hide ListingOf, Relisted;
    NoListing(ls, dir);
    var i :| 0 <= i < |ls| && ls[i].dir == dir;
    ListingAt(ls, i);
    RelistedAt(ls, i, Some(l));
    forall d ensures ListingOf(ls[i := l], d) == if d == dir then Some(l) else ListingOf(ls, d) {
      ListingMoved(ls, i, l, d);
    }
  }

  lemma {:induction false} HandKeeps(setup: Setup, s: State, dir: nat, r: Option<Name>, s': State)
    requires StateOk(setup, s) && dir in s.atOpen && ListingOf(s.listings, dir).Some? && Hands(s, dir, r, s')
    ensures StateOk(setup, s') && (r.None? ==> |s.returned[dir]| == |s.atOpen[dir]|)
  {
    hide HandleOk, ListingOf, Relisted;
    var l := ListingOf(s.listings, dir).value;
    assert HandleOk(setup, Some(l), s.left[dir], s.atOpen[dir], s.returned[dir]);
    Read(setup, l, s.left[dir], s.atOpen[dir], s.returned[dir]);
    ListingReplaced(s.listings, dir, l.(pos := l.pos + 1));
  }

  // Every call keeps the state in order, and readdir ends only when everything has been handed out.
  lemma {:induction false} StepKeeps(setup: Setup, s: State, c: Call, s': State)
    requires StateOk(setup, s) && Steps(setup, s, c, s')
    ensures StateOk(setup, s')
    ensures c.Readdir? && c.name == None ==> c.dir in s.atOpen && |s.returned[c.dir]| == |s.atOpen[c.dir]|
  {
    hide StateOk, InHashOrder, Hands, Passes, AllShort;
    assert s.left.Keys == s.atOpen.Keys == s.returned.Keys by { SameHandles(setup, s); }
    match c {
      case Opendir(dir, names) => OpenKeeps(setup, s, dir, names);
      case Closedir(dir) => CloseKeeps(setup, s, dir);
      case Readdir(dir, r) =>
        if !setup.haveSeed {
          PassKeeps(setup, s, dir, r, s');
        } else if ListingOf(s.listings, dir).Some? {
          HandKeeps(setup, s, dir, r, s');
        } else {
          var e :| InHashOrder(setup, s.left[dir], e) && Hands(Listed(s, dir, e), dir, r, s');
          ListKeeps(setup, s, dir, e);
          HandKeeps(setup, Listed(s, dir, e), dir, r, s');
        }
    }
  }

  lemma {:induction false} SameHandles(setup: Setup, s: State)
    requires StateOk(setup, s)
    ensures s.left.Keys == s.atOpen.Keys == s.returned.Keys
  {
  }

  // ----- Sequences of calls -----

  const NothingOpen := State([], map[], map[], map[])

  // The states that a sequence of calls on any handles goes through.
  ghost predicate IsRun(setup: Setup, states: seq<State>, calls: seq<Call>) {
    && |states| == |calls| + 1 && states[0] == NothingOpen
    && forall k :: 0 <= k < |calls| ==> Steps(setup, states[k], calls[k], states[k + 1])
  }

  // What the handle had when it was last opened, if it is open after these calls.
  function HadAtOpen(calls: seq<Call>, dir: nat): Option<seq<Name>> {
    if calls == [] then None
    else
      match calls[|calls| - 1]
      case Opendir(d, names) => if d == dir then Some(names) else HadAtOpen(calls[..|calls| - 1], dir)
      case Readdir(_, _) => HadAtOpen(calls[..|calls| - 1], dir)
      case Closedir(d) => if d == dir then None else HadAtOpen(calls[..|calls| - 1], dir)
  }

  // The names that its readdir calls have returned since.
  function HandedOut(calls: seq<Call>, dir: nat): seq<Name> {
    if calls == [] then []
    else
      var before := HandedOut(calls[..|calls| - 1], dir);
      match calls[|calls| - 1]
      case Opendir(d, _) => if d == dir then [] else before
      case Readdir(d, r) => if d == dir && r.Some? then before + [r.value] else before
      case Closedir(_) => before
  }

  lemma {:induction false} RunState(setup: Setup, states: seq<State>, calls: seq<Call>, dir: nat)
    requires IsRun(setup, states, calls) && setup.blockSize < 0x1_0000_0000
    ensures var s := states[|calls|];
      && StateOk(setup, s) && (HadAtOpen(calls, dir).Some? <==> dir in s.atOpen)
      && (dir in s.atOpen ==> s.atOpen[dir] == HadAtOpen(calls, dir).value && dir in s.returned
                              && s.returned[dir] == HandedOut(calls, dir))
    decreases |calls|
  {
    hide StateOk, Steps;
    if calls == [] {
      assert StateOk(setup, NothingOpen) by { StartOk(setup); }
    } else {
      var last := |calls| - 1;
      var s, c := states[last], calls[last];
      assert IsRun(setup, states[..last + 1], calls[..last]);
      RunState(setup, states[..last + 1], calls[..last], dir);
      assert states[..last + 1][last] == s;
      StepKeeps(setup, s, c, states[last + 1]);
      SameHandles(setup, states[last + 1]);
      StepRecorded(setup, s, c, states[last + 1], dir);
    }
  }

  lemma {:induction false} StartOk(setup: Setup)
    requires setup.blockSize < 0x1_0000_0000
    ensures StateOk(setup, NothingOpen)
  {
  }

  // What a call changes in the records of a handle.
  lemma {:induction false} StepRecorded(setup: Setup, s: State, c: Call, s': State, dir: nat)
    requires Steps(setup, s, c, s')
    ensures dir in s'.atOpen <==> (c.Opendir? && c.dir == dir) || (dir in s.atOpen && !(c.Closedir? && c.dir == dir))
    ensures dir in s'.atOpen ==>
      s'.atOpen[dir] == if c.Opendir? && c.dir == dir then c.names else s.atOpen[dir]
    ensures c.Opendir? && c.dir == dir ==> dir in s'.returned && s'.returned[dir] == []
    ensures dir in s'.returned && !(c.Opendir? && c.dir == dir) ==>
      dir in s.returned &&
      s'.returned[dir] == if c.Readdir? && c.dir == dir && c.name.Some? then s.returned[dir] + [c.name.value]
                          else s.returned[dir]
  {
    hide InHashOrder, ListingOf, Relisted, AllShort;
  }

  /**
   However the calls on all handles are mixed: with a seed, the names that an open handle has
   handed out since it was opened are the first of one permutation of its entries, in ascending
   order of their hashes; in an indexed directory "." and then ".." come before all others. When
   readdir says that there are no more, that is all of them.
   */
  lemma {:induction false} HandedOutInOrder(setup: Setup, states: seq<State>, calls: seq<Call>, dir: nat)
    returns (p: seq<Entry>)
    requires IsRun(setup, states, calls) && setup.blockSize < 0x1_0000_0000 && setup.haveSeed
    requires HadAtOpen(calls, dir).Some?
    ensures var names, out := HadAtOpen(calls, dir).value, HandedOut(calls, dir);
      && (out != [] ==> InHashOrder(setup, names, p) && out <= NamesOf(p))
      && (out != [] ==> Ascending(p) && KeysRight(setup.seed, p) && multiset(NamesOf(p)) == multiset(names))
      && (out != [] && Indexed(names, setup.blockSize, setup.csum) ==> DotsFirst(names, out))
      && (calls[|calls| - 1] == Readdir(dir, None) ==> multiset(out) == multiset(names))
  {
    hide Steps, StateOk, HandleOk, InHashOrder, HadAtOpen, HandedOut, NamesOf, Indexed, DotsFirst, Ascending,
      KeysRight;
    RunState(setup, states, calls, dir);
    var s := states[|calls|];
    p := InOrderNow(setup, s, dir);
    var names, out := HadAtOpen(calls, dir).value, HandedOut(calls, dir);
    if out != [] {
      OrderAscends(setup, names, p);
      if Indexed(names, setup.blockSize, setup.csum) { DotsComeFirst(setup, names, p, out); }
    }
    if calls != [] && calls[|calls| - 1] == Readdir(dir, None) { Finished(setup, states, calls, dir, p); }
  }

  // A directory's "." is the first name, and ".." the one behind it.
  predicate DotsFirst(names: seq<Name>, out: seq<Name>) {
    && ([46] in names && out != [] ==> out[0] == [46])
    && (multiset(names)[[46]] == 1 && [46, 46] in names && |out| > 1 ==> out[1] == [46, 46])
  }

  // The keys are the second and third word of the name's hash.
  predicate KeysRight(seed: Words, p: seq<Entry>) {
    forall k :: 0 <= k < |p| ==>
      && |p[k].name| < 0x8000_0000 && p[k].major == Major(HashFrom(Start(seed), p[k].name).b) as nat
      && p[k].minor == HashFrom(Start(seed), p[k].name).c as nat
  }

  lemma {:induction false} OrderAscends(setup: Setup, names: seq<Name>, p: seq<Entry>)
    requires InHashOrder(setup, names, p)
    ensures Ascending(p) && KeysRight(setup.seed, p)
  {
    hide Ascending, Indexed, HashFrom, Major, Start;
    var entries := EntriesOf(setup.seed, names, Indexed(names, setup.blockSize, setup.csum));
    forall k | 0 <= k < |p|
      ensures && |p[k].name| < 0x8000_0000 && p[k].major == Major(HashFrom(Start(setup.seed), p[k].name).b) as nat
              && p[k].minor == HashFrom(Start(setup.seed), p[k].name).c as nat
    {
      assert p[k] in multiset(p);
      assert p[k] in multiset(entries);
      var i :| 0 <= i < |entries| && entries[i] == p[k];
    }
  }

  lemma {:induction false} DotsComeFirst(setup: Setup, names: seq<Name>, p: seq<Entry>, out: seq<Name>)
    requires InHashOrder(setup, names, p) && Indexed(names, setup.blockSize, setup.csum) && out <= NamesOf(p)
    requires multiset(NamesOf(p)) == multiset(names)
    ensures DotsFirst(names, out)
  {
    hide Indexed, Ascending, InHashOrder, NamesOf;
    if [46] in names && out != [] {
      var k := NameAt(names, p, [46]);
      MarkedAhead(setup, names, p, 0, k);
    }
    if multiset(names)[[46]] == 1 && [46, 46] in names && |out| > 1 {
      var k := NameAt(names, p, [46, 46]);
      var d := NameAt(names, p, [46]);
      MarkedAhead(setup, names, p, 0, d);
      MarkedAhead(setup, names, p, if k == 0 then 0 else 1, k);
      OnceOnly(names, p);
    }
  }

  // In front of a "." or ".." there are only names of their kind.
  lemma {:induction false} MarkedAhead(setup: Setup, names: seq<Name>, p: seq<Entry>, i: nat, k: nat)
    requires InHashOrder(setup, names, p) && Indexed(names, setup.blockSize, setup.csum) && i <= k < |p|
    ensures p[k].name == [46] ==> p[i].name == [46]
    ensures p[k].name == [46, 46] ==> p[i].name == [46] || p[i].name == [46, 46]
  {
    hide Indexed, EntriesOf;
    EntryMarked(setup, names, p, i);
    EntryMarked(setup, names, p, k);
    assert p[i].dot >= p[k].dot;
  }

  lemma {:induction false} OnceOnly(names: seq<Name>, p: seq<Entry>)
    requires multiset(NamesOf(p)) == multiset(names) && multiset(names)[[46]] == 1 && |p| > 1 && p[0].name == [46]
    ensures p[1].name != [46]
  {
    if p[1].name == [46] { TwiceCounts(NamesOf(p), 0, 1); }
  }

  lemma {:induction false} NameAt(names: seq<Name>, p: seq<Entry>, name: Name) returns (k: nat)
    requires multiset(NamesOf(p)) == multiset(names) && name in names
    ensures k < |p| == |NamesOf(p)| && p[k].name == name
  {
    assert name in multiset(NamesOf(p));
    k :| 0 <= k < |p| && NamesOf(p)[k] == name;
  }

  lemma {:induction false} TwiceCounts(names: seq<Name>, i: nat, j: nat)
    requires i < j < |names| && names[i] == names[j]
    ensures multiset(names)[names[i]] >= 2
  {
    assert names == names[..j] + names[j..];
    assert names[..j][i] == names[i] && names[j..][0] == names[j];
    assert names[i] in multiset(names[..j]) && names[j] in multiset(names[j..]);
  }

  // An entry of the permutation is marked as its name says.
  lemma {:induction false} EntryMarked(setup: Setup, names: seq<Name>, p: seq<Entry>, k: nat)
    requires InHashOrder(setup, names, p) && k < |p| && Indexed(names, setup.blockSize, setup.csum)
    ensures p[k].dot == if p[k].name == [46] then 2 else if p[k].name == [46, 46] then 1 else 0
  {
    hide Indexed, Ascending, HashFrom;
    var entries := EntriesOf(setup.seed, names, Indexed(names, setup.blockSize, setup.csum));
    assert p[k] in multiset(p);
    assert p[k] in multiset(entries);
    var i :| 0 <= i < |entries| && entries[i] == p[k];
  }

  // readdir says the end when the whole permutation has been handed out.
  lemma {:induction false} Finished(setup: Setup, states: seq<State>, calls: seq<Call>, dir: nat, p: seq<Entry>)
    requires IsRun(setup, states, calls) && setup.blockSize < 0x1_0000_0000 && calls != []
    requires calls[|calls| - 1] == Readdir(dir, None) && HadAtOpen(calls, dir).Some?
    requires var names, out := HadAtOpen(calls, dir).value, HandedOut(calls, dir);
      out != [] ==> out <= NamesOf(p) && multiset(NamesOf(p)) == multiset(names)
    ensures multiset(HandedOut(calls, dir)) == multiset(HadAtOpen(calls, dir).value)
  {
    hide Steps, StateOk, InHashOrder, NamesOf;
    var last := |calls| - 1;
    assert IsRun(setup, states[..last + 1], calls[..last]);
    assert states[..last + 1][last] == states[last];
    RunState(setup, states[..last + 1], calls[..last], dir);
    StepKeeps(setup, states[last], calls[last], states[last + 1]);
    var names, out := HadAtOpen(calls, dir).value, HandedOut(calls, dir);
    assert |out| == |names|;
    if out != [] {
      assert |multiset(NamesOf(p))| == |multiset(names)|;
      assert out == NamesOf(p);
    }
  }

  lemma {:induction false} InOrderNow(setup: Setup, s: State, dir: nat) returns (p: seq<Entry>)
    requires StateOk(setup, s) && dir in s.atOpen && setup.haveSeed
    ensures dir in s.returned
    ensures s.returned[dir] != [] ==>
      && InHashOrder(setup, s.atOpen[dir], p) && s.returned[dir] <= NamesOf(p)
      && multiset(NamesOf(p)) == multiset(s.atOpen[dir])
  {
    var l := ListingOf(s.listings, dir);
    p := if l.Some? then l.value.e else [];
    assert HandleOk(setup, l, s.left[dir], s.atOpen[dir], s.returned[dir]);
    if l.Some? {
      var entries := EntriesOf(setup.seed, s.atOpen[dir], Indexed(s.atOpen[dir], setup.blockSize, setup.csum));
      PermutedNames(p, entries);
      assert NamesOf(entries) == s.atOpen[dir];
    }
  }

  lemma {:induction false} PermutedNames(a: seq<Entry>, b: seq<Entry>)
    requires Permutes(a, b)
    ensures multiset(NamesOf(a)) == multiset(NamesOf(b))
    decreases |a|
  {
    hide NamesOf;
    assert |multiset(a)| == |a| && |multiset(b)| == |b|;
    if a == [] {
      assert b == [];
    } else {
      var last := |a| - 1;
      var x := a[last];
      assert x in multiset(b);
      var k :| 0 <= k < |b| && b[k] == x;
      var b' := b[..k] + b[k + 1..];
      OneOut(a, last);
      OneOut(b, k);
      assert a[..last] + a[last + 1..] == a[..last];
      PermutedNames(a[..last], b');
    }
  }

  // The entries and their names without entry k.
  lemma {:induction false} OneOut(e: seq<Entry>, k: nat)
    requires k < |e|
    ensures var r := e[..k] + e[k + 1..];
      && multiset(r) == multiset(e) - multiset{e[k]}
      && multiset(NamesOf(e)) == multiset(NamesOf(r)) + multiset{e[k].name}
  {
    hide NamesOf, InsertAt;
    var r := e[..k] + e[k + 1..];
    Removed(e, k);
    InsertedBag(r, k, e[k]);
    InsertedNames(r, k, e[k]);
  }

  lemma {:induction false} Removed(r: seq<Entry>, k: nat)
    requires k < |r|
    ensures InsertAt(r[..k] + r[k + 1..], k, r[k]) == r
  {
  }

  lemma {:induction false} InsertedNames(r: seq<Entry>, k: nat, x: Entry)
    requires k <= |r|
    ensures multiset(NamesOf(InsertAt(r, k, x))) == multiset(NamesOf(r)) + multiset{x.name}
  {
    var n := NamesOf(r);
    assert NamesOf(InsertAt(r, k, x)) == n[..k] + [x.name] + n[k..];
    assert n == n[..k] + n[k..];
  }

  class Shim {
    const setup: Setup
    var listings: seq<Listing>              // newest first
    var left: map<nat, seq<Name>>           // what the real readdir still has, by open handle
    ghost var atOpen: map<nat, seq<Name>>   // what it had when the handle was opened
    ghost var returned: map<nat, seq<Name>> // what has been handed out since

    constructor (setup: Setup)
      requires setup.blockSize < 0x1_0000_0000
      ensures Valid() && atOpen == map[]
    {
      this.setup := setup;
      listings, left, atOpen, returned := [], map[], map[], map[];
    }

    ghost function View(): State
      reads this
    {
      State(listings, left, atOpen, returned)
    }

    ghost predicate Valid()
      reads this
    {
      StateOk(setup, View())
    }

    // opendir is not replaced: a handle appears that is not open yet.
    method Opendir(dir: nat, names: seq<Name>)
      requires Valid() && dir !in atOpen && AllShort(names)
      modifies this
      ensures Valid() && Steps(setup, old(View()), Call.Opendir(dir, names), View())
    {
      hide StateOk, HandleOk, AllShort;
      OpenKeeps(setup, View(), dir, names);
      left := left[dir := names];
      atOpen := atOpen[dir := names];
      returned := returned[dir := []];
    }

    // closedir: forget the listing of the handle, if it has one.
    method Closedir(dir: nat)
      requires Valid() && dir in atOpen
      modifies this
      ensures Valid() && Steps(setup, old(View()), Call.Closedir(dir), View())
    {
      hide StateOk, HandleOk, Relisted;
      CloseKeeps(setup, View(), dir);
      var i := FindListing(dir);
      if i < |listings| {
        RelistedAt(listings, i, None);
        listings := listings[..i] + listings[i + 1..];
      } else {
        NoListing(listings, dir);
        NotListed(listings, dir);
      }
      left := left - {dir};
      atOpen := atOpen - {dir};
      returned := returned - {dir};
    }

    method FindListing(dir: nat) returns (i: nat)
      ensures i <= |listings| && (i < |listings| ==> listings[i].dir == dir)
      ensures forall j :: 0 <= j < i ==> listings[j].dir != dir
    {
      i := 0;
      while i < |listings| && listings[i].dir != dir
        invariant i <= |listings| && forall j :: 0 <= j < i ==> listings[j].dir != dir
      {
        i := i + 1;
      }
    }

    // The real readdir.
    method RealReaddir(dir: nat) returns (r: Option<Name>)
      requires dir in left
      modifies this`left
      ensures old(left[dir]) == [] ==> r == None && left == old(left)
      ensures old(left[dir]) != [] ==> r == Some(old(left[dir])[0]) && left == old(left)[dir := old(left[dir])[1..]]
    {
      if left[dir] == [] {
        return None;
      }
      r := Some(left[dir][0]);
      left := left[dir := left[dir][1..]];
    }

    // get_listing: the index of the handle's listing, which is made at the first call.
    method GetListing(dir: nat) returns (i: nat)
      requires Valid() && dir in atOpen && setup.haveSeed
      modifies this`listings, this`left
      ensures Valid() && i < |listings| && listings[i].dir == dir && forall j :: 0 <= j < i ==> listings[j].dir != dir
      ensures dir in old(left) && setup.blockSize < 0x1_0000_0000
      ensures ListingOf(old(listings), dir).Some? ==> View() == old(View())
      ensures ListingOf(old(listings), dir) == None ==> AllShort(old(left[dir]))
      ensures ListingOf(old(listings), dir) == None ==>
                exists e :: InHashOrder(setup, old(left[dir]), e) && View() == Listed(old(View()), dir, e)
    {
      hide HandleOk, InHashOrder, AllShort;
      i := FindListing(dir);
      NoListing(listings, dir);
      if i < |listings| {
        return;
      }
      MakeListing(dir);
      return 0;
    }

    // The listing of a handle that has none yet is put in front.
    method MakeListing(dir: nat)
      requires Valid() && dir in atOpen && setup.haveSeed && ListingOf(listings, dir) == None
      modifies this`listings, this`left
      ensures Valid() && 0 < |listings| && listings[0].dir == dir
      ensures dir in old(left) && AllShort(old(left[dir])) && setup.blockSize < 0x1_0000_0000
      ensures exists e :: InHashOrder(setup, old(left[dir]), e) && View() == Listed(old(View()), dir, e)
    {
      hide HandleOk, InHashOrder, AllShort;
      ghost var was := View();
      Unread(setup, left[dir], atOpen[dir], returned[dir]);
      var e := ReadAll(dir, left[dir]);
      ListKeeps(setup, was, dir, e);
      hide StateOk;
      listings := [Listing(dir, e, 0)] + listings;
      assert View() == Listed(was, dir, e);
    }

    // Read the directory in full, mark "." and ".." if it is indexed, and sort.
    method ReadAll(dir: nat, ghost names: seq<Name>) returns (e: seq<Entry>)
      requires dir in left && left[dir] == names && AllShort(names) && setup.blockSize < 0x1_0000_0000
      modifies this`left
      ensures InHashOrder(setup, names, e) && left == old(left)[dir := []]
    {
      hide HashFrom, Major, Sorted, Ascending;
      e := [];
      var d := RealReaddir(dir);
      ghost var k := 0;
      while d.Some?
        invariant if d.Some? then k < |names| && d.value == names[k] else k == |names|
        invariant left == old(left)[dir := if d.Some? then names[k + 1..] else []]
        invariant |e| == k && forall i :: 0 <= i < k ==> e[i] == EntryOf(setup.seed, names[i], false)
        decreases |names| - k
      {
        var major, minor := Dirhash(d.value, setup.seed);
        e := e + [Entry(d.value, major as nat, minor as nat, 0)];
        d := RealReaddir(dir);
        k := k + 1;
      }
      e := MarkDots(e, names);
      e := Sort(e);
      SortedAscends(e);
    }

    // In an indexed directory "." and ".." come first.
    method MarkDots(e: seq<Entry>, ghost names: seq<Name>) returns (r: seq<Entry>)
      requires AllShort(names) && setup.blockSize < 0x1_0000_0000 && e == EntriesOf(setup.seed, names, false)
      ensures r == EntriesOf(setup.seed, names, Indexed(names, setup.blockSize, setup.csum))
    {
      hide HashFrom, Major;
      var total := 0;
      assert names[..0] == [];
      for i := 0 to |e|
        invariant total == Total(names[..i])
      {
        assert names[..i + 1][..i] == names[..i];
        total := total + (8 + |e[i].name| + 3) / 4 * 4;
      }
      assert names[..|e|] == names;
      r := e;
      if total > Room(setup.blockSize, setup.csum) {
        for i := 0 to |e|
          invariant |r| == |e|
          invariant forall k :: 0 <= k < i ==> r[k] == EntryOf(setup.seed, names[k], true)
          invariant forall k :: i <= k < |e| ==> r[k] == e[k]
        {
          r := r[i := r[i].(dot := if r[i].name == [46] then 2 else if r[i].name == [46, 46] then 1 else 0)];
        }
      }
    }

    /**
     readdir: the next entry of the handle's listing, or the end once all have been handed out.
     Without a seed it is the real readdir.
     */
    method Readdir(dir: nat) returns (r: Option<Name>)
      requires Valid() && dir in atOpen
      modifies this
      ensures Valid() && Steps(setup, old(View()), Call.Readdir(dir, r), View())
      ensures r.None? ==> returned == old(returned) && |returned[dir]| == |atOpen[dir]|
    {
      hide StateOk, HandleOk, InHashOrder, AllShort;
      ghost var was := View();
      SameHandles(setup, was);
      assert setup.blockSize < 0x1_0000_0000 by { BlockSizeOk(setup, was); }
      if setup.haveSeed {
        r := NextEntry(dir);
      } else {
        r := PassThrough(dir);
      }
      StepKeeps(setup, was, Call.Readdir(dir, r), View());
      StepRecorded(setup, was, Call.Readdir(dir, r), View(), dir);
    }

    // next_entry.
    method NextEntry(dir: nat) returns (r: Option<Name>)
      requires Valid() && dir in atOpen && setup.haveSeed
      modifies this
      ensures Steps(setup, old(View()), Call.Readdir(dir, r), View())
      ensures r.None? ==> returned == old(returned) && atOpen == old(atOpen)
    {
      hide StateOk, HandleOk, InHashOrder, AllShort, Relisted;
      SameHandles(setup, View());
      var i := GetListing(dir);
      ghost var s := View();
      ListingAt(listings, i);
      var l := listings[i];
      if l.pos < |l.e| {
        RelistedAt(listings, i, Some(l.(pos := l.pos + 1)));
        listings := listings[i := l.(pos := l.pos + 1)];
        returned := returned[dir := returned[dir] + [l.e[l.pos].name]];
        r := Some(l.e[l.pos].name);
      } else {
        r := None;
      }
      assert Hands(s, dir, r, View());
    }

    method PassThrough(dir: nat) returns (r: Option<Name>)
      requires dir in left && dir in returned
      modifies this`left, this`returned
      ensures Passes(old(View()), dir, r, View())
      ensures r.None? ==> returned == old(returned)
    {
      r := RealReaddir(dir);
      if r.Some? {
        returned := returned[dir := returned[dir] + [r.value]];
      }
    }
  }

  lemma {:induction false} BlockSizeOk(setup: Setup, s: State)
    requires StateOk(setup, s)
    ensures setup.blockSize < 0x1_0000_0000
  {
  }

  // One entry more, or the end.
  lemma {:induction false} Read(setup: Setup, l: Listing, left: seq<Name>, names: seq<Name>, returned: seq<Name>)
    requires HandleOk(setup, Some(l), left, names, returned)
    ensures l.pos < |l.e| ==> HandleOk(setup, Some(l.(pos := l.pos + 1)), left, names, returned + [l.e[l.pos].name])
    ensures l.pos <= |l.e| && (l.pos == |l.e| ==> |returned| == |names|)
  {
    hide InHashOrder, AllShort;
    OrderLength(setup, names, l.e);
    assert l.pos < |l.e| ==> NamesOf(l.e)[..l.pos + 1] == NamesOf(l.e)[..l.pos] + [l.e[l.pos].name];
  }

  lemma {:induction false} OrderLength(setup: Setup, names: seq<Name>, p: seq<Entry>)
    requires InHashOrder(setup, names, p)
    ensures |p| == |names|
  {
    hide Ascending;
    var entries := EntriesOf(setup.seed, names, Indexed(names, setup.blockSize, setup.csum));
    assert |multiset(p)| == |multiset(entries)|;
  }

  lemma {:induction false} Fresh(setup: Setup, names: seq<Name>)
    requires AllShort(names)
    ensures HandleOk(setup, None, names, names, [])
  {
    assert [] + names == names;
  }

  lemma {:induction false} Unread(setup: Setup, left: seq<Name>, names: seq<Name>, returned: seq<Name>)
    requires HandleOk(setup, None, left, names, returned) && setup.haveSeed
    ensures returned == [] && left == names && AllShort(names)
  {
    assert [] + left == left;
  }

  lemma {:induction false} Made(setup: Setup, names: seq<Name>, dir: nat, e: seq<Entry>)
    requires setup.haveSeed && AllShort(names) && InHashOrder(setup, names, e)
    ensures HandleOk(setup, Some(Listing(dir, e, 0)), [], names, [])
  {
  }
}
