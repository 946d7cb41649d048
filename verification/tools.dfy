/** The external programs and formats, and what is assumed of them. */
module Tools {
  import opened Bytes
  import opened BinPack
  import opened DiskIds
  import opened Plan

  type Hash = string
  type Directory = map<string, Bytes>

  datatype Member = Member(name: string, data: Bytes)

  /** internal/toc/toc.go: the table of contents burned next to the payload. */
  datatype Toc = Toc(disk: DiskId, mediaType: string, parityPercent: nat, compressed: bool,
                     group: string, role: Role, slot: nat, createdAt: nat, files: seq<FileInfo>)

  /**
   * archive/tar, compress/gzip, the TOC's JSON, par2create, par2verify, xorriso and SHA-256.
   * xorriso's image may also depend on the moment it is built, here a number. `volumes` is
   * what par2create writes besides its index, if anything.
   */
  datatype Tools = Tools(
    tar: seq<Member> -> Bytes,
    untar: Bytes -> Option<seq<Member>>,
    gzip: Bytes -> Bytes,
    gunzip: Bytes -> Option<Bytes>,
    toc: Toc -> Bytes,
    parseToc: Bytes -> Option<Toc>,
    par2: (Bytes, nat) -> Bytes,
    volumes: (Bytes, nat) -> Option<Bytes>,
    par2ok: (Bytes, Bytes) -> bool,
    image: (Directory, nat) -> Bytes,
    extract: (Bytes, string) -> Option<Bytes>,
    hash: Bytes -> Hash)

  function Lookup(dir: Directory, name: string): Option<Bytes> {
    if name in dir then Some(dir[name]) else None
  }

  /**
   * The only assumptions made: round trips, intact data passes its par2 check, trailing zeros
   * do not change what is extracted from an image, archives and images are no shorter than
   * what they hold, a table of contents is not empty, and the hash is injective.
   */
  ghost predicate Lawful(t: Tools) {
    && (forall ms :: t.untar(t.tar(ms)) == Some(ms))
    && (forall b :: t.gunzip(t.gzip(b)) == Some(b))
    && (forall c :: t.parseToc(t.toc(c)) == Some(c))
    && (forall b, percent :: t.par2ok(b, t.par2(b, percent)))
    && (forall dir, moment, n: nat, name ::
          t.extract(t.image(dir, moment) + Zeros(n), name) == Lookup(dir, name))
    && (forall a, b :: t.hash(a) == t.hash(b) ==> a == b)
    && (forall ms :: Holds(t.tar(ms), ms))
    && (forall dir, moment :: HasRoomFor(t.image(dir, moment), dir))
    && (forall c :: t.toc(c) != [])
  }

  /** The archive is no shorter than any of its members. */
  ghost predicate Holds(tar: Bytes, ms: seq<Member>) {
    forall i :: 0 <= i < |ms| ==> |ms[i].data| <= |tar|
  }

  /** The image is no shorter than any two of its entries together. */
  ghost predicate HasRoomFor(image: Bytes, dir: Directory) {
    forall a, b :: a in dir && b in dir && a != b ==> |dir[a]| + |dir[b]| <= |image|
  }

  // ---- internal/burn/pack.go -------------------------------------------------------

  ghost predicate AllStaged(files: seq<FileInfo>, staging: map<string, Bytes>) {
    forall i :: 0 <= i < |files| ==> files[i].path in staging
  }

  function MembersOf(files: seq<FileInfo>, staging: map<string, Bytes>): (ms: seq<Member>)
    requires forall i :: 0 <= i < |files| ==> files[i].path in staging
    ensures |ms| == |files|
  {
    seq(|files|, i requires 0 <= i < |files| => Member(files[i].path, staging[files[i].path]))
  }

  function Archive(t: Tools, ms: seq<Member>, compress: bool): Bytes {
    if compress then t.gzip(t.tar(ms)) else t.tar(ms)
  }

  /** Stops at the first file that is missing from staging. */
  method WriteTar(t: Tools, staging: map<string, Bytes>, bucket: Bucket, compress: bool)
      returns (out: Option<Bytes>)
    ensures out.Some? <==> AllStaged(bucket.files, staging)
    ensures out.Some? ==> out.value == Archive(t, MembersOf(bucket.files, staging), compress)
    ensures out.Some? ==>
              exists ms: seq<Member> ::
                && |ms| == |bucket.files|
                && (forall i :: 0 <= i < |ms| ==>
                      bucket.files[i].path in staging
                      && ms[i] == Member(bucket.files[i].path, staging[bucket.files[i].path]))
                && out.value == if compress then t.gzip(t.tar(ms)) else t.tar(ms)
  {
    var ms: seq<Member> := [];
    for i := 0 to |bucket.files|
      invariant AllStaged(bucket.files[..i], staging)
      invariant ms == MembersOf(bucket.files[..i], staging)
    {
      var f := bucket.files[i];
      if f.path !in staging {
        return None;
      }
      ms := ms + [Member(f.path, staging[f.path])];
    }
    assert bucket.files[..|bucket.files|] == bucket.files;
    out := Some(Archive(t, ms, compress));
  }

  function Find(ms: seq<Member>, name: string): Option<Bytes> {
    if ms == [] then None else if ms[0].name == name then Some(ms[0].data) else Find(ms[1..], name)
  }

  /** The first member of that name has this data. */
  ghost predicate FirstOf(ms: seq<Member>, name: string, data: Bytes) {
    exists i :: 0 <= i < |ms| && ms[i] == Member(name, data) && forall k :: 0 <= k < i ==> ms[k].name != name
  }

  lemma {:induction false} FindIsFirst(ms: seq<Member>, name: string)
    ensures Find(ms, name).Some? ==> FirstOf(ms, name, Find(ms, name).value)
    ensures Find(ms, name).None? <==> forall i :: 0 <= i < |ms| ==> ms[i].name != name
  {
    if ms != [] && ms[0].name != name {
      FindIsFirst(ms[1..], name);
      if Find(ms, name).Some? {
        var i :| 0 <= i < |ms[1..]| && ms[1..][i] == Member(name, Find(ms, name).value)
          && forall k :: 0 <= k < i ==> ms[1..][k].name != name;
        assert ms[i + 1] == ms[1..][i];
        assert forall k :: 0 < k < i + 1 ==> ms[k] == ms[1..][k - 1];
      } else {
        assert forall k :: 0 < k < |ms| ==> ms[k] == ms[1..][k - 1];
      }
    }
  }

  function FileIn(t: Tools, tar: Bytes, compressed: bool, path: string): Option<Bytes> {
    var plain := if compressed then t.gunzip(tar) else Some(tar);
    if plain.None? then None else
      var ms := t.untar(plain.value);
      if ms.None? then None else Find(ms.value, path)
  }

  /** The archive can be read to its end. */
  predicate Sound(t: Tools, tar: Bytes, compressed: bool) {
    var plain := if compressed then t.gunzip(tar) else Some(tar);
    plain.Some? && t.untar(plain.value).Some?
  }

  /** Reads members until the name matches or the archive ends. */
  method ExtractFile(t: Tools, tar: Bytes, compressed: bool, path: string) returns (out: Option<Bytes>)
    ensures out == FileIn(t, tar, compressed, path)
    ensures out.Some? ==>
              var plain := if compressed then t.gunzip(tar) else Some(tar);
              plain.Some? && t.untar(plain.value).Some? && FirstOf(t.untar(plain.value).value, path, out.value)
  {
    var plain := Some(tar);
    if compressed {
      plain := t.gunzip(tar);
    }
    if plain.None? {
      return None;
    }
    var ms := t.untar(plain.value);
    if ms.None? {
      return None;
    }
    FindIsFirst(ms.value, path);
    for i := 0 to |ms.value|
      invariant Find(ms.value, path) == Find(ms.value[i..], path)
    {
      if ms.value[i].name == path {
        return Some(ms.value[i].data);
      }
    }
    return None;
  }

  lemma {:induction false} FindMember(files: seq<FileInfo>, staging: map<string, Bytes>, i: nat)
    requires AllStaged(files, staging) && i < |files|
    ensures Find(MembersOf(files, staging), files[i].path) == Some(staging[files[i].path])
  {
    var ms := MembersOf(files, staging);
    if ms[0].name != files[i].path {
      assert ms[1..] == MembersOf(files[1..], staging);
      FindMember(files[1..], staging, i - 1);
    }
  }

  /** Every file put into an archive comes out of it byte for byte. */
  lemma ArchivedFile(t: Tools, files: seq<FileInfo>, staging: map<string, Bytes>, compress: bool, i: nat)
    requires Lawful(t) && AllStaged(files, staging) && i < |files|
    ensures FileIn(t, Archive(t, MembersOf(files, staging), compress), compress, files[i].path)
         == Some(staging[files[i].path])
  {
    FindMember(files, staging, i);
  }

  // ---- One disc ----------------------------------------------------------------------

  function TarName(id: DiskId): string { Text(id) + ".tar" }
  function Par2Name(id: DiskId): string { TarName(id) + ".par2" }
  function VolumeName(id: DiskId): string { TarName(id) + ".vol.par2" }
  function TocName(id: DiskId): string { Text(id) + ".toc.json" }
  function IsoName(id: DiskId): string { Text(id) + ".iso" }
  function SourceName(id: DiskId): string { Text(id) + "-src" }

  /** The spool entries of one disc that an attempt clears away before it starts. */
  function StaleNames(id: DiskId): set<string> {
    {TarName(id), Par2Name(id), TocName(id), IsoName(id), SourceName(id)}
  }

  /** All spool entries of one disc. One name stands for all of par2create's volume files. */
  function OwnNames(id: DiskId): set<string> {
    StaleNames(id) + {VolumeName(id)}
  }

  /** The entries of disc 42. */
  lemma NameExamples()
    ensures var id := DiskId("BD", 42);
            && TarName(id) == "BD:0042.tar" && Par2Name(id) == "BD:0042.tar.par2"
            && TocName(id) == "BD:0042.toc.json" && IsoName(id) == "BD:0042.iso" && SourceName(id) == "BD:0042-src"
  {
    LabelExamples();
    hide Text;
  }

  lemma LastChars(id: DiskId)
    ensures TarName(id)[|TarName(id)| - 1] == 'r' && TarName(id)[..|TarName(id)| - 4] == Text(id)
    ensures Par2Name(id)[|Par2Name(id)| - 1] == '2' && Par2Name(id)[..|Par2Name(id)| - 9] == Text(id)
    ensures Par2Name(id)[|Par2Name(id)| - 6] == 'r'
    ensures VolumeName(id)[|VolumeName(id)| - 1] == '2' && VolumeName(id)[..|VolumeName(id)| - 13] == Text(id)
    ensures VolumeName(id)[|VolumeName(id)| - 6] == 'l'
    ensures TocName(id)[|TocName(id)| - 1] == 'n' && TocName(id)[..|TocName(id)| - 9] == Text(id)
    ensures IsoName(id)[|IsoName(id)| - 1] == 'o' && IsoName(id)[..|IsoName(id)| - 4] == Text(id)
    ensures SourceName(id)[|SourceName(id)| - 1] == 'c' && SourceName(id)[..|SourceName(id)| - 4] == Text(id)
  {
  }

  /** Spool entries of distinct discs never coincide, whatever the IDs look like. */
  lemma OwnNamesDisjoint(a: DiskId, b: DiskId)
    requires a != b
    ensures OwnNames(a) !! OwnNames(b)
  {
    LastChars(a);
    LastChars(b);
    if Text(a) == Text(b) {
      TextInjective(a, b);
    }
  }

  function TocOf(plan: DiscPlan, opts: Options, now: nat): Toc {
    Toc(plan.id, opts.mediaType, opts.parityPercent, opts.compress,
        plan.group, plan.role, plan.slot, now, plan.bucket.files)
  }

  /** What a disc's source directory holds when its image is built. */
  function SourceDir(t: Tools, plan: DiscPlan, opts: Options, payload: Bytes, now: nat): Directory {
    map[TarName(plan.id) := payload,
        TocName(plan.id) := t.toc(TocOf(plan, opts, now)),
        Par2Name(plan.id) := t.par2(payload, opts.parityPercent)]
  }

  /** `image` was built, at some moment, from the source directory of `plan` with this payload. */
  ghost predicate Built(t: Tools, image: Bytes, plan: DiscPlan, opts: Options, payload: Bytes) {
    exists now: nat, moment: nat :: image == t.image(SourceDir(t, plan, opts, payload, now), moment)
  }

  datatype Reading = Unreadable | WrongDisc | NoSuchFile | Found(data: Bytes)

  /** What readFrom makes of an image when it looks for one file of one disc. */
  function ReadFile(t: Tools, image: Bytes, id: DiskId, path: string): Reading {
    var toc := t.extract(image, TocName(id));
    if toc.None? then Unreadable else
      var parsed := t.parseToc(toc.value);
      if parsed.None? then Unreadable
      else if parsed.value.disk != id then WrongDisc
      else
        var tar := t.extract(image, TarName(id));
        var index := t.extract(image, Par2Name(id));
        if tar.None? || index.None? || !t.par2ok(tar.value, index.value) then Unreadable else
          var file := FileIn(t, tar.value, parsed.value.compressed, path);
          if file.None? then NoSuchFile else Found(file.value)
  }

  /** The table of contents on an image, if there is one that can be read. */
  ghost predicate TocSays(t: Tools, image: Bytes, id: DiskId, toc: Toc) {
    t.extract(image, TocName(id)).Some? && t.parseToc(t.extract(image, TocName(id)).value) == Some(toc)
  }

  /** The archive and the index on an image are there, and par2 finds no damage. */
  ghost predicate Intact(t: Tools, image: Bytes, id: DiskId) {
    var tar, index := t.extract(image, TarName(id)), t.extract(image, Par2Name(id));
    tar.Some? && index.Some? && t.par2ok(tar.value, index.value)
  }

  /** The archive on an image, unpacked as its table of contents says. */
  ghost predicate Unpacks(t: Tools, image: Bytes, id: DiskId, ms: seq<Member>) {
    exists toc :: TocSays(t, image, id, toc) && UnpacksAs(t, image, id, toc.compressed, ms)
  }

  ghost predicate UnpacksAs(t: Tools, image: Bytes, id: DiskId, compressed: bool, ms: seq<Member>) {
    var tar := t.extract(image, TarName(id));
    && tar.Some?
    && if compressed then t.gunzip(tar.value).Some? && t.untar(t.gunzip(tar.value).value) == Some(ms)
       else t.untar(tar.value) == Some(ms)
  }

  /**
   * What a read comes to, whatever is on the image: a readable table of contents decides
   * whether it is the right disc; of the right disc the archive must pass its par2 check; and
   * the file is the first member of its name.
   */
  lemma ReadingTable(t: Tools, image: Bytes, id: DiskId, path: string)
    ensures var reading := ReadFile(t, image, id, path);
            && (reading == WrongDisc <==> exists toc :: TocSays(t, image, id, toc) && toc.disk != id)
            && (reading == Unreadable <==>
                  forall toc :: TocSays(t, image, id, toc) ==> toc.disk == id && !Intact(t, image, id))
            && (reading.Found? ==> Intact(t, image, id) && (exists toc :: TocSays(t, image, id, toc) && toc.disk == id))
            && (reading.Found? ==> exists ms :: Unpacks(t, image, id, ms) && FirstOf(ms, path, reading.data))
            && (reading == NoSuchFile ==>
                  forall ms: seq<Member>, i :: Unpacks(t, image, id, ms) && 0 <= i < |ms| ==> ms[i].name != path)
  {
    var toc := t.extract(image, TocName(id));
    if toc.Some? && t.parseToc(toc.value).Some? {
      var c := t.parseToc(toc.value).value;
      assert TocSays(t, image, id, c);
      assert forall other :: TocSays(t, image, id, other) ==> other == c;
      var tar := t.extract(image, TarName(id));
      if c.disk == id && Intact(t, image, id) {
        UnpackedFile(t, image, id, c.compressed, path);
      }
    }
  }

  lemma UnpackedFile(t: Tools, image: Bytes, id: DiskId, compressed: bool, path: string)
    requires t.extract(image, TarName(id)).Some?
    ensures var file := FileIn(t, t.extract(image, TarName(id)).value, compressed, path);
            && (file.Some? ==> exists ms :: UnpacksAs(t, image, id, compressed, ms) && FirstOf(ms, path, file.value))
            && (file.None? ==>
                  forall ms: seq<Member>, i :: UnpacksAs(t, image, id, compressed, ms) && 0 <= i < |ms| ==>
                      ms[i].name != path)
  {
    var tar := t.extract(image, TarName(id)).value;
    var plain := if compressed then t.gunzip(tar) else Some(tar);
    if plain.Some? && t.untar(plain.value).Some? {
      FindIsFirst(t.untar(plain.value).value, path);
      assert UnpacksAs(t, image, id, compressed, t.untar(plain.value).value);
    }
  }

  /** An image is longer than the payload in it. */
  lemma ImageExceedsPayload(t: Tools, image: Bytes, plan: DiscPlan, opts: Options, payload: Bytes)
    requires Lawful(t) && Built(t, image, plan, opts, payload)
    ensures |image| > |payload|
  {
    LastChars(plan.id);
    var now: nat, moment: nat :| image == t.image(SourceDir(t, plan, opts, payload, now), moment);
    var dir := SourceDir(t, plan, opts, payload, now);
    assert HasRoomFor(t.image(dir, moment), dir);
    assert t.toc(TocOf(plan, opts, now)) != [];
    assert TarName(plan.id) in dir && TocName(plan.id) in dir && TarName(plan.id) != TocName(plan.id);
  }

  /** One image has one payload. */
  lemma PayloadIsUnique(t: Tools, image: Bytes, plan: DiscPlan, opts: Options, payload: Bytes,
                        other: DiscPlan, otherOpts: Options, otherPayload: Bytes)
    requires Lawful(t) && Built(t, image, plan, opts, payload) && Built(t, image, other, otherOpts, otherPayload)
    requires plan.id == other.id
    ensures payload == otherPayload
  {
    BuiltReads(t, image, plan, opts, payload, 0, "");
    BuiltReads(t, image, other, otherOpts, otherPayload, 0, "");
  }

  /** A built image, also with zeros after it, is read as what went into it. */
  lemma BuiltReads(t: Tools, image: Bytes, plan: DiscPlan, opts: Options, payload: Bytes, n: nat, path: string)
    requires Lawful(t) && Built(t, image, plan, opts, payload)
    ensures t.extract(image + Zeros(n), TarName(plan.id)) == Some(payload)
    ensures var file := FileIn(t, payload, opts.compress, path);
            ReadFile(t, image + Zeros(n), plan.id, path) == if file.None? then NoSuchFile else Found(file.value)
  {
    LastChars(plan.id);
    var now: nat, moment: nat :| image == t.image(SourceDir(t, plan, opts, payload, now), moment);
    var dir := SourceDir(t, plan, opts, payload, now);
    assert t.extract(image + Zeros(n), TarName(plan.id)) == Lookup(dir, TarName(plan.id));
    assert t.extract(image + Zeros(n), TocName(plan.id)) == Lookup(dir, TocName(plan.id));
    assert t.extract(image + Zeros(n), Par2Name(plan.id)) == Lookup(dir, Par2Name(plan.id));
  }

  /** What is written on a built image: its payload, the index of that, and this table of contents. */
  lemma BuiltSays(t: Tools, image: Bytes, plan: DiscPlan, opts: Options, payload: Bytes) returns (toc: Toc)
    requires Lawful(t) && Built(t, image, plan, opts, payload)
    ensures t.extract(image, TarName(plan.id)) == Some(payload)
    ensures t.extract(image, Par2Name(plan.id)) == Some(t.par2(payload, opts.parityPercent))
    ensures TocSays(t, image, plan.id, toc)
    ensures toc.disk == plan.id && toc.mediaType == opts.mediaType && toc.parityPercent == opts.parityPercent
    ensures toc.compressed == opts.compress && toc.group == plan.group && toc.role == plan.role && toc.slot == plan.slot
    ensures toc.files == plan.bucket.files
  {
    LastChars(plan.id);
    var now: nat, moment: nat :| image == t.image(SourceDir(t, plan, opts, payload, now), moment);
    var dir := SourceDir(t, plan, opts, payload, now);
    assert image + Zeros(0) == image;
    assert t.extract(image + Zeros(0), TarName(plan.id)) == Lookup(dir, TarName(plan.id));
    assert t.extract(image + Zeros(0), TocName(plan.id)) == Lookup(dir, TocName(plan.id));
    assert t.extract(image + Zeros(0), Par2Name(plan.id)) == Lookup(dir, Par2Name(plan.id));
    toc := TocOf(plan, opts, now);
  }
}
