/**
 * Tools that obey every law: nothing proved from the laws is empty. The formats here are
 * made up; numbers are written in unary and words end with a byte of their own.
 */
module StandIn {
  import opened Bytes
  import opened BinPack
  import opened Plan
  import opened Tools

  // ---- Words of numbers as bytes -----------------------------------------------------------

  type Word = seq<nat>

  function EncNat(n: nat): (b: Bytes)
    ensures b != [] && (b[0] == 1 || b[0] == 2)
  {
    if n == 0 then [2] else [1] + EncNat(n - 1)
  }

  function EncWord(w: Word): (b: Bytes)
    ensures b != [] && b[0] != 0
    ensures b[0] == 3 <==> w == []
  {
    if w == [] then [3] else EncNat(w[0]) + EncWord(w[1..])
  }

  function EncWords(ws: seq<Word>): Bytes {
    if ws == [] then [] else EncWord(ws[0]) + EncWords(ws[1..])
  }

  lemma {:induction false} NatEndsItself(n: nat, m: nat, x: Bytes, y: Bytes)
    requires EncNat(n) + x == EncNat(m) + y
    ensures n == m && x == y
  {
    var l, r := EncNat(n) + x, EncNat(m) + y;
    assert l[0] == EncNat(n)[0] && r[0] == EncNat(m)[0];
    if n > 0 && m > 0 {
      assert l[1..] == EncNat(n - 1) + x && r[1..] == EncNat(m - 1) + y;
      NatEndsItself(n - 1, m - 1, x, y);
    } else {
      assert l[1..] == EncNat(n)[1..] + x && r[1..] == EncNat(m)[1..] + y;
    }
  }

  lemma {:induction false} WordEndsItself(v: Word, w: Word, x: Bytes, y: Bytes)
    requires EncWord(v) + x == EncWord(w) + y
    ensures v == w && x == y
  {
    var l, r := EncWord(v) + x, EncWord(w) + y;
    assert l[0] == EncWord(v)[0] && r[0] == EncWord(w)[0];
    if v == [] {
      assert l[1..] == x && r[1..] == y;
    } else {
      assert l == EncNat(v[0]) + (EncWord(v[1..]) + x);
      assert r == EncNat(w[0]) + (EncWord(w[1..]) + y);
      NatEndsItself(v[0], w[0], EncWord(v[1..]) + x, EncWord(w[1..]) + y);
      WordEndsItself(v[1..], w[1..], x, y);
      assert v == [v[0]] + v[1..] && w == [w[0]] + w[1..];
    }
  }

  lemma WordsStart(ws: seq<Word>, x: Bytes)
    requires ws != []
    ensures EncWords(ws) + x != [] && (EncWords(ws) + x)[0] != 0
  {
    assert (EncWords(ws) + x)[0] == EncWord(ws[0])[0];
  }

  /** Words are read back the same, also when zeros follow. */
  lemma {:induction false} WordsInjective(a: seq<Word>, b: seq<Word>, m: nat, n: nat)
    requires EncWords(a) + Zeros(m) == EncWords(b) + Zeros(n)
    ensures a == b
  {
    if a == [] || b == [] {
      if a != [] {
        WordsStart(a, Zeros(m));
      }
      if b != [] {
        WordsStart(b, Zeros(n));
      }
      assert EncWords([]) + Zeros(m) == Zeros(m) && EncWords([]) + Zeros(n) == Zeros(n);
    } else {
      assert EncWords(a) + Zeros(m) == EncWord(a[0]) + (EncWords(a[1..]) + Zeros(m));
      assert EncWords(b) + Zeros(n) == EncWord(b[0]) + (EncWords(b[1..]) + Zeros(n));
      WordEndsItself(a[0], b[0], EncWords(a[1..]) + Zeros(m), EncWords(b[1..]) + Zeros(n));
      WordsInjective(a[1..], b[1..], m, n);
      assert a == [a[0]] + a[1..] && b == [b[0]] + b[1..];
    }
  }

  // ---- Members and tables of contents as words ------------------------------------------------

  function CharCodes(s: string): (w: Word)
    ensures |w| == |s|
  {
    seq(|s|, i requires 0 <= i < |s| => s[i] as nat)
  }

  function ByteCodes(b: Bytes): (w: Word)
    ensures |w| == |b|
  {
    seq(|b|, i requires 0 <= i < |b| => b[i] as nat)
  }

  lemma CharCodesInjective(a: string, b: string)
    requires CharCodes(a) == CharCodes(b)
    ensures a == b
  {
    forall i | 0 <= i < |a|
      ensures a[i] == b[i]
    {
      assert CharCodes(a)[i] == CharCodes(b)[i];
    }
  }

  lemma ByteCodesInjective(a: Bytes, b: Bytes)
    requires ByteCodes(a) == ByteCodes(b)
    ensures a == b
  {
    forall i | 0 <= i < |a|
      ensures a[i] == b[i]
    {
      assert ByteCodes(a)[i] == ByteCodes(b)[i];
    }
  }

  function MemberWords(ms: seq<Member>): seq<Word> {
    if ms == [] then [] else [CharCodes(ms[0].name), ByteCodes(ms[0].data)] + MemberWords(ms[1..])
  }

  lemma {:induction false} MemberWordsInjective(a: seq<Member>, b: seq<Member>)
    requires MemberWords(a) == MemberWords(b)
    ensures a == b
  {
    if a != [] && b != [] {
      var l, r := MemberWords(a), MemberWords(b);
      assert l[0] == r[0] && l[1] == r[1];
      CharCodesInjective(a[0].name, b[0].name);
      ByteCodesInjective(a[0].data, b[0].data);
      assert l[2..] == MemberWords(a[1..]) && r[2..] == MemberWords(b[1..]);
      MemberWordsInjective(a[1..], b[1..]);
      assert a == [a[0]] + a[1..] && b == [b[0]] + b[1..];
    }
  }

  function FileWords(fs: seq<FileInfo>): seq<Word> {
    if fs == [] then [] else [CharCodes(fs[0].path), [fs[0].size]] + FileWords(fs[1..])
  }

  lemma {:induction false} FileWordsInjective(a: seq<FileInfo>, b: seq<FileInfo>)
    requires FileWords(a) == FileWords(b)
    ensures a == b
  {
    if a != [] && b != [] {
      var l, r := FileWords(a), FileWords(b);
      assert l[0] == r[0] && l[1] == r[1];
      CharCodesInjective(a[0].path, b[0].path);
      assert [a[0].size][0] == [b[0].size][0];
      assert l[2..] == FileWords(a[1..]) && r[2..] == FileWords(b[1..]);
      FileWordsInjective(a[1..], b[1..]);
      assert a == [a[0]] + a[1..] && b == [b[0]] + b[1..];
    }
  }

  function Flag(b: bool): nat {
    if b then 1 else 0
  }

  function TocHead(c: Toc): seq<Word> {
    [CharCodes(c.disk.prefix), CharCodes(c.mediaType), CharCodes(c.group),
     [c.disk.number, c.parityPercent, Flag(c.compressed), Flag(c.role == Data), c.slot, c.createdAt]]
  }

  function TocWords(c: Toc): seq<Word> {
    TocHead(c) + FileWords(c.files)
  }

  lemma TocWordsInjective(a: Toc, b: Toc)
    requires TocWords(a) == TocWords(b)
    ensures a == b
  {
    var l, r := TocWords(a), TocWords(b);
    assert l[..4] == TocHead(a) && r[..4] == TocHead(b);
    assert l[4..] == FileWords(a.files) && r[4..] == FileWords(b.files);
    FileWordsInjective(a.files, b.files);
    assert TocHead(a)[0] == TocHead(b)[0] && TocHead(a)[1] == TocHead(b)[1] && TocHead(a)[2] == TocHead(b)[2];
    CharCodesInjective(a.disk.prefix, b.disk.prefix);
    CharCodesInjective(a.mediaType, b.mediaType);
    CharCodesInjective(a.group, b.group);
    var v, w := TocHead(a)[3], TocHead(b)[3];
    assert v[0] == w[0] && v[1] == w[1] && v[2] == w[2] && v[3] == w[3] && v[4] == w[4] && v[5] == w[5];
  }

  // ---- Directories -------------------------------------------------------------------------------

  /** The entries of a directory in some order. */
  ghost function Entries(dir: Directory): (ms: seq<Member>)
    ensures forall name :: Find(ms, name) == Lookup(dir, name)
    decreases |dir|
  {
    if dir == map[] then [] else
      var name :| name in dir;
      [Member(name, dir[name])] + Entries(dir - {name})
  }

  ghost function ImageWords(dir: Directory, moment: nat): seq<Word> {
    [[moment]] + MemberWords(Entries(dir))
  }

  lemma ImageWordsTell(a: Directory, b: Directory, m: nat, n: nat, name: string)
    requires ImageWords(a, m) == ImageWords(b, n)
    ensures Lookup(a, name) == Lookup(b, name)
  {
    assert ImageWords(a, m)[1..] == MemberWords(Entries(a)) && ImageWords(b, n)[1..] == MemberWords(Entries(b));
    MemberWordsInjective(Entries(a), Entries(b));
  }

  // ---- The tools ------------------------------------------------------------------------------------

  ghost predicate IsTar(b: Bytes, ms: seq<Member>) {
    b == EncWords(MemberWords(ms))
  }

  ghost function Untar(b: Bytes): Option<seq<Member>> {
    if exists ms :: IsTar(b, ms) then
      var ms :| IsTar(b, ms);
      Some(ms)
    else None
  }

  ghost predicate IsToc(b: Bytes, c: Toc) {
    b == EncWords(TocWords(c))
  }

  ghost function ParseToc(b: Bytes): Option<Toc> {
    if exists c :: IsToc(b, c) then
      var c :| IsToc(b, c);
      Some(c)
    else None
  }

  ghost predicate IsImage(b: Bytes, dir: Directory, moment: nat, n: nat) {
    b == EncWords(ImageWords(dir, moment)) + Zeros(n)
  }

  ghost function Extract(b: Bytes, name: string): Option<Bytes> {
    if exists dir, moment, n :: IsImage(b, dir, moment, n) then
      var dir, moment, n :| IsImage(b, dir, moment, n);
      Lookup(dir, name)
    else None
  }

  function HashOf(b: Bytes): Hash {
    seq(|b|, i requires 0 <= i < |b| => b[i] as char)
  }

  ghost function Example(): Tools {
    Tools(
      ms => EncWords(MemberWords(ms)), b => Untar(b),
      b => b, b => Some(b),
      c => EncWords(TocWords(c)), b => ParseToc(b),
      (b: Bytes, percent: nat) => [], (b: Bytes, percent: nat) => Some([]), (b: Bytes, index: Bytes) => true,
      (dir: Directory, moment: nat) => EncWords(ImageWords(dir, moment)), (b: Bytes, name: string) => Extract(b, name),
      b => HashOf(b))
  }

  lemma SameWords(a: seq<Word>, b: seq<Word>)
    requires EncWords(a) == EncWords(b)
    ensures a == b
  {
    assert EncWords(a) + Zeros(0) == EncWords(b) + Zeros(0);
    hide EncWords;
    WordsInjective(a, b, 0, 0);
  }

  lemma UntarsOwn(ms: seq<Member>)
    ensures Untar(EncWords(MemberWords(ms))) == Some(ms)
  {
    var b := EncWords(MemberWords(ms));
    assert IsTar(b, ms);
    var other := Untar(b).value;
    assert IsTar(b, other);
    assert EncWords(MemberWords(other)) == EncWords(MemberWords(ms));
    SameWords(MemberWords(other), MemberWords(ms));
    MemberWordsInjective(other, ms);
  }

  lemma ParsesOwn(c: Toc)
    ensures ParseToc(EncWords(TocWords(c))) == Some(c)
  {
    var b := EncWords(TocWords(c));
    assert IsToc(b, c);
    var other := ParseToc(b).value;
    assert IsToc(b, other);
    assert EncWords(TocWords(other)) == EncWords(TocWords(c));
    SameWords(TocWords(other), TocWords(c));
    TocWordsInjective(other, c);
  }

  lemma ExtractChooses(b: Bytes, name: string) returns (dir: Directory, moment: nat, n: nat)
    requires exists dir, moment, n :: IsImage(b, dir, moment, n)
    ensures b == EncWords(ImageWords(dir, moment)) + Zeros(n) && Extract(b, name) == Lookup(dir, name)
  {
    hide EncWords;
    var d, m, k :| IsImage(b, d, m, k) && Extract(b, name) == Lookup(d, name);
    dir, moment, n := d, m, k;
  }

  lemma ExtractsOwn(dir: Directory, moment: nat, n: nat, name: string)
    ensures Extract(EncWords(ImageWords(dir, moment)) + Zeros(n), name) == Lookup(dir, name)
  {
    var b := EncWords(ImageWords(dir, moment)) + Zeros(n);
    assert IsImage(b, dir, moment, n);
    var d, m, k := ExtractChooses(b, name);
    WordsInjective(ImageWords(dir, moment), ImageWords(d, m), n, k);
    ImageWordsTell(dir, d, moment, m, name);
  }

  lemma HashInjective(a: Bytes, b: Bytes)
    requires HashOf(a) == HashOf(b)
    ensures a == b
  {
    forall i | 0 <= i < |a|
      ensures a[i] == b[i]
    {
      assert HashOf(a)[i] == HashOf(b)[i];
    }
  }

  lemma {:induction false} WordLength(w: Word)
    ensures |EncWord(w)| > |w|
  {
    if w != [] {
      WordLength(w[1..]);
    }
  }

  lemma MemberFirst(ms: seq<Member>)
    requires ms != []
    ensures |EncWords(MemberWords(ms))| >= |ms[0].data| + |EncWords(MemberWords(ms[1..]))|
  {
    var words := MemberWords(ms);
    WordLength(words[1]);
    assert words[1..][0] == ByteCodes(ms[0].data) && words[1..][1..] == MemberWords(ms[1..]);
    hide EncWord;
    assert EncWords(words) == EncWord(words[0]) + EncWords(words[1..]);
    assert EncWords(words[1..]) == EncWord(words[1..][0]) + EncWords(words[1..][1..]);
  }

  lemma {:induction false} OneFits(ms: seq<Member>, i: nat)
    requires i < |ms|
    ensures |ms[i].data| <= |EncWords(MemberWords(ms))|
  {
    MemberFirst(ms);
    if i > 0 {
      OneFits(ms[1..], i - 1);
    }
  }

  lemma {:induction false} TwoFit(ms: seq<Member>, i: nat, j: nat)
    requires i < j < |ms|
    ensures |ms[i].data| + |ms[j].data| <= |EncWords(MemberWords(ms))|
  {
    MemberFirst(ms);
    if i > 0 {
      TwoFit(ms[1..], i - 1, j - 1);
    } else {
      OneFits(ms[1..], j - 1);
    }
  }

  lemma {:induction false} FoundAt(ms: seq<Member>, name: string) returns (i: nat)
    requires Find(ms, name).Some?
    ensures i < |ms| && ms[i].name == name && Some(ms[i].data) == Find(ms, name)
  {
    if ms[0].name == name {
      i := 0;
    } else {
      i := FoundAt(ms[1..], name);
      i := i + 1;
    }
  }

  lemma EntriesFit(dir: Directory, moment: nat)
    ensures HasRoomFor(EncWords(ImageWords(dir, moment)), dir)
  {
    var ms, words := Entries(dir), ImageWords(dir, moment);
    assert words[1..] == MemberWords(ms);
    assert |EncWords(words)| >= |EncWords(MemberWords(ms))|;
    forall a, b | a in dir && b in dir && a != b
      ensures |dir[a]| + |dir[b]| <= |EncWords(words)|
    {
      assert Find(ms, a) == Lookup(dir, a) && Find(ms, b) == Lookup(dir, b);
      var i := FoundAt(ms, a);
      var j := FoundAt(ms, b);
      if i < j {
        TwoFit(ms, i, j);
      } else {
        TwoFit(ms, j, i);
      }
    }
  }

  /** The laws can all hold at once. */
  lemma LawsAreConsistent()
    ensures Lawful(Example())
  {
    var t := Example();
    forall ms ensures t.untar(t.tar(ms)) == Some(ms) {
      UntarsOwn(ms);
    }
    forall c ensures t.parseToc(t.toc(c)) == Some(c) {
      ParsesOwn(c);
    }
    forall dir, moment, n: nat, name ensures t.extract(t.image(dir, moment) + Zeros(n), name) == Lookup(dir, name) {
      ExtractsOwn(dir, moment, n, name);
    }
    forall a, b | t.hash(a) == t.hash(b) ensures a == b {
      HashInjective(a, b);
    }
    forall ms: seq<Member> ensures Holds(t.tar(ms), ms) {
      forall i | 0 <= i < |ms| ensures |ms[i].data| <= |t.tar(ms)| {
        OneFits(ms, i);
      }
    }
    forall dir, moment ensures HasRoomFor(t.image(dir, moment), dir) {
      EntriesFit(dir, moment);
    }
    forall c ensures t.toc(c) != [] {
      WordsStart(TocWords(c), []);
    }
  }
}
