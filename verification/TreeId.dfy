/**
  The Git tree identities of verify_curl_source.py and libffi_source.py.  SHA-1 is a parameter: any
  function to 20 bytes.
 */
module TreeId {
  import opened Prelude

  type Bytes = seq<Byte>
  type Digest = d: Bytes | |d| == 20 witness seq(20, _ => 0)
  type Hash = Bytes -> Digest

  /** What the file system holds; entries are in directory order.  Names are os.fsencode'd. */
  datatype Node =
    | File(perm: nat, data: Bytes)
    | Link(target: Bytes)
    | Dir(entries: seq<Entry>)
    | Special                  // device, socket, pipe

  datatype Entry = Entry(name: Bytes, node: Node)

  // The two implementations.
  datatype Tool = Curl | Libffi

  const NUL: Byte := 0
  const LF: Byte := 10
  const CR: Byte := 13
  const SPACE: Byte := 32
  const SLASH: Byte := 47

  function Ascii(s: string): Bytes {
    seq(|s|, i requires 0 <= i < |s| => (s[i] as int % 256) as Byte)
  }

  const GIT := Ascii(".git")
  const BLOB := Ascii("blob")
  const TREE := Ascii("tree")
  const CRLF_PATHS := {
    Ascii("projects/Windows/generate.bat"), Ascii("projects/Windows/tmpl/curl-all.sln"),
    Ascii("projects/Windows/tmpl/curl.sln"), Ascii("projects/Windows/tmpl/libcurl.sln") }

  // data.replace(b'\r\n', b'\n')
  function ToLf(data: Bytes): Bytes {
    if data == [] then []
    else if |data| >= 2 && data[0] == CR && data[1] == LF then [LF] + ToLf(data[2..])
    else [data[0]] + ToLf(data[1..])
  }

  predicate Skipped(tool: Tool, top: bool, name: Bytes) {
    name == GIT && (tool.Libffi? || top)
  }

  function Content(tool: Tool, path: Bytes, data: Bytes): Bytes {
    if tool.Curl? && path in CRLF_PATHS then ToLf(data) else data
  }

  // perm & 0o111
  predicate Executable(perm: nat) {
    perm % 2 == 1 || perm / 8 % 2 == 1 || perm / 64 % 2 == 1
  }

  function Digits(n: nat): Bytes {
    (if n < 10 then [] else Digits(n / 10)) + [48 + n % 10]
  }

  // The bytes that are hashed for an object.
  function Framed(kind: Bytes, data: Bytes): Bytes {
    kind + [SPACE] + Digits(|data|) + [NUL] + data
  }

  // object_id, oid
  function ObjectId(h: Hash, kind: Bytes, data: Bytes): Digest {
    h(Framed(kind, data))
  }

  // One element of the list that is sorted.
  datatype Record = Record(key: Bytes, payload: Bytes)

  function Payload(mode: Bytes, name: Bytes, oid: Digest): Bytes {
    mode + [SPACE] + name + [NUL] + oid
  }

  const MODE_LINK := Ascii("120000")
  const MODE_TREE := Ascii("40000")
  const MODE_EXEC := Ascii("100755")
  const MODE_FILE := Ascii("100644")

  // Lexicographic order of bytes objects.
  predicate Less(a: Bytes, b: Bytes) {
    if b == [] then false
    else if a == [] then true
    else a[0] < b[0] || (a[0] == b[0] && Less(a[1..], b[1..]))
  }

  // Order of the (key, payload) tuples.
  predicate Before(a: Record, b: Record) {
    Less(a.key, b.key) || (a.key == b.key && Less(a.payload, b.payload))
  }

  function Insert(r: Record, s: seq<Record>): seq<Record> {
    if s == [] then [r] else if Before(s[0], r) then [s[0]] + Insert(r, s[1..]) else [r] + s
  }

  // sorted(entries)
  function Sort(s: seq<Record>): seq<Record> {
    if s == [] then [] else Insert(s[0], Sort(s[1..]))
  }

  // b''.join of the payloads
  function Join(s: seq<Record>): Bytes {
    if s == [] then [] else s[0].payload + Join(s[1..])
  }

  function RecordOf(tool: Tool, h: Hash, e: Entry, prefix: Bytes): Option<Record>
    decreases e, 2
  {
    match e.node
    case Link(target) => Some(Record(e.name, Payload(MODE_LINK, e.name, ObjectId(h, BLOB, target))))
    case Dir(entries) =>
      (match Id(tool, h, entries, false, prefix + e.name + [SLASH])
       case None => None
       case Some(oid) => Some(Record(e.name + [SLASH], Payload(MODE_TREE, e.name, oid))))
    case File(perm, data) =>
      Some(Record(e.name, Payload(if Executable(perm) then MODE_EXEC else MODE_FILE, e.name,
                                  ObjectId(h, BLOB, Content(tool, prefix + e.name, data)))))
    case Special => None
  }

  function Records(tool: Tool, h: Hash, entries: seq<Entry>, top: bool, prefix: Bytes): Option<seq<Record>>
    decreases entries, 0
  {
    if entries == [] then Some([])
    else if Skipped(tool, top, entries[0].name) then Records(tool, h, entries[1..], top, prefix)
    else match RecordOf(tool, h, entries[0], prefix)
      case None => None
      case Some(r) =>
        match Records(tool, h, entries[1..], top, prefix)
        case None => None
        case Some(rest) => Some([r] + rest)
  }

  /** tree_id; None is the ValueError for an unsupported entry. */
  function Id(tool: Tool, h: Hash, entries: seq<Entry>, top: bool, prefix: Bytes): Option<Digest>
    decreases entries, 1
  {
    match Records(tool, h, entries, top, prefix)
    case None => None
    case Some(records) => Some(ObjectId(h, TREE, Join(Sort(records))))
  }

  // ---------- The tree an identity stands for ----------

  /** A tree up to directory order, permission bits other than execution, the skipped .git and the
      line endings of the four CRLF paths. */
  datatype Obj =
    | Blob(exec: bool, data: Bytes)
    | Symlink(target: Bytes)
    | Tree(items: set<Item>)

  datatype Item = Item(name: Bytes, obj: Obj)

  function CanonNode(tool: Tool, e: Entry, prefix: Bytes): Option<Obj>
    decreases e, 2
  {
    match e.node
    case Link(target) => Some(Symlink(target))
    case Dir(entries) =>
      (match Canon(tool, entries, false, prefix + e.name + [SLASH])
       case None => None
       case Some(items) => Some(Tree(items)))
    case File(perm, data) => Some(Blob(Executable(perm), Content(tool, prefix + e.name, data)))
    case Special => None
  }

  function Canon(tool: Tool, entries: seq<Entry>, top: bool, prefix: Bytes): Option<set<Item>>
    decreases entries, 0
  {
    if entries == [] then Some({})
    else if Skipped(tool, top, entries[0].name) then Canon(tool, entries[1..], top, prefix)
    else match CanonNode(tool, entries[0], prefix)
      case None => None
      case Some(obj) =>
        match Canon(tool, entries[1..], top, prefix)
        case None => None
        case Some(rest) => Some({Item(entries[0].name, obj)} + rest)
  }

  // What a file system guarantees: names are distinct, not empty, without '/' and without NUL.
  predicate Valid(entries: seq<Entry>)
    decreases entries
  {
    entries == []
    || (&& entries[0].name != [] && SLASH !in entries[0].name && NUL !in entries[0].name
        && (entries[0].node.Dir? ==> Valid(entries[0].node.entries))
        && (forall e <- entries[1..] :: e.name != entries[0].name)
        && Valid(entries[1..]))
  }

  lemma {:induction false} ValidEntry(entries: seq<Entry>, e: Entry)
    requires Valid(entries) && e in entries
    ensures e.name != [] && SLASH !in e.name && NUL !in e.name && (e.node.Dir? ==> Valid(e.node.entries))
    decreases entries
  {
    if e != entries[0] { assert e in entries[1..]; ValidEntry(entries[1..], e); }
  }

  // ---------- Which entries count ----------

  predicate Kept(tool: Tool, entries: seq<Entry>, top: bool, e: Entry) {
    e in entries && !Skipped(tool, top, e.name)
  }

  lemma {:induction false} RecordsHave(tool: Tool, h: Hash, entries: seq<Entry>, top: bool, prefix: Bytes, e: Entry)
    requires Records(tool, h, entries, top, prefix).Some? && Kept(tool, entries, top, e)
    ensures RecordOf(tool, h, e, prefix).Some?
    ensures RecordOf(tool, h, e, prefix).value in Records(tool, h, entries, top, prefix).value
    decreases entries
  {
    if e != entries[0] { assert e in entries[1..]; RecordsHave(tool, h, entries[1..], top, prefix, e); }
  }

  lemma {:induction false} RecordsFrom(tool: Tool, h: Hash, entries: seq<Entry>, top: bool, prefix: Bytes, r: Record)
    returns (e: Entry)
    requires Records(tool, h, entries, top, prefix).Some? && r in Records(tool, h, entries, top, prefix).value
    ensures Kept(tool, entries, top, e) && RecordOf(tool, h, e, prefix) == Some(r)
    decreases entries
  {
    if Skipped(tool, top, entries[0].name) || r != RecordOf(tool, h, entries[0], prefix).value {
      e := RecordsFrom(tool, h, entries[1..], top, prefix, r);
    } else {
      e := entries[0];
    }
  }

  lemma {:induction false} CanonHas(tool: Tool, entries: seq<Entry>, top: bool, prefix: Bytes, e: Entry)
    requires Canon(tool, entries, top, prefix).Some? && Kept(tool, entries, top, e)
    ensures CanonNode(tool, e, prefix).Some?
    ensures Item(e.name, CanonNode(tool, e, prefix).value) in Canon(tool, entries, top, prefix).value
    decreases entries
  {
    if e != entries[0] { assert e in entries[1..]; CanonHas(tool, entries[1..], top, prefix, e); }
  }

  lemma {:induction false} CanonFrom(tool: Tool, entries: seq<Entry>, top: bool, prefix: Bytes, item: Item)
    returns (e: Entry)
    requires Canon(tool, entries, top, prefix).Some? && item in Canon(tool, entries, top, prefix).value
    ensures Kept(tool, entries, top, e) && e.name == item.name && CanonNode(tool, e, prefix) == Some(item.obj)
    decreases entries
  {
    if Skipped(tool, top, entries[0].name) || item != Item(entries[0].name, CanonNode(tool, entries[0], prefix).value) {
      e := CanonFrom(tool, entries[1..], top, prefix, item);
    } else {
      e := entries[0];
    }
  }

  /** An identity exists exactly if the tree has no unsupported entry outside what is skipped. */
  lemma {:induction false} IdIffCanon(tool: Tool, h: Hash, entries: seq<Entry>, top: bool, prefix: Bytes)
    ensures Records(tool, h, entries, top, prefix).Some? <==> Canon(tool, entries, top, prefix).Some?
    ensures Id(tool, h, entries, top, prefix).Some? <==> Canon(tool, entries, top, prefix).Some?
    decreases entries
  {
    if entries != [] {
      IdIffCanon(tool, h, entries[1..], top, prefix);
      var e := entries[0];
      if e.node.Dir? { IdIffCanon(tool, h, e.node.entries, false, prefix + e.name + [SLASH]); }
    }
  }

  // ---------- Sorting ----------

  lemma {:induction false} LessOrder(a: Bytes, b: Bytes, c: Bytes)
    ensures !Less(a, a)
    ensures Less(a, b) && Less(b, c) ==> Less(a, c)
    ensures Less(a, b) || a == b || Less(b, a)
    decreases a
  {
    if a != [] && b != [] && c != [] {
      LessOrder(a[1..], b[1..], c[1..]);
      if a[0] == b[0] && a[1..] == b[1..] { assert a == [a[0]] + a[1..] == b; }
    } else if a != [] && b != [] {
      LessOrder(a[1..], b[1..], []);
      if a[0] == b[0] && a[1..] == b[1..] { assert a == [a[0]] + a[1..] == b; }
    } else if a != [] {
      LessOrder(a[1..], [], []);
    }
  }

  lemma BeforeOrder(a: Record, b: Record, c: Record)
    ensures !Before(a, a)
    ensures Before(a, b) && Before(b, c) ==> Before(a, c)
    ensures Before(a, b) || a == b || Before(b, a)
  {
    LessOrder(a.key, b.key, c.key);
    LessOrder(b.key, a.key, c.key);
    LessOrder(a.payload, b.payload, c.payload);
    LessOrder(b.key, b.key, b.key);
  }

  ghost predicate Ordered(s: seq<Record>) {
    forall i, j :: 0 <= i < j < |s| ==> Before(s[i], s[j])
  }

  lemma {:induction false} InsertMembers(r: Record, s: seq<Record>)
    ensures forall x :: x in Insert(r, s) <==> x == r || x in s
    ensures |Insert(r, s)| == |s| + 1
  {
    if s != [] { InsertMembers(r, s[1..]); }
  }

  lemma {:induction false} InsertOrdered(r: Record, s: seq<Record>)
    requires Ordered(s) && r !in s
    ensures Ordered(Insert(r, s))
  {
    if s != [] {
      BeforeOrder(s[0], r, r);
      InsertMembers(r, s[1..]);
      if Before(s[0], r) {
        InsertOrdered(r, s[1..]);
        var t := Insert(r, s[1..]);
        forall j | 0 <= j < |t| ensures Before(s[0], t[j]) { assert t[j] in t; }
      } else {
        forall j | 0 <= j < |s| ensures Before(r, s[j]) {
          assert Before(r, s[0]);
          if j > 0 { BeforeOrder(r, s[0], s[j]); }
        }
      }
    }
  }

  lemma {:induction false} SortMembers(s: seq<Record>)
    ensures forall x :: x in Sort(s) <==> x in s
    ensures |Sort(s)| == |s|
  {
    if s != [] {
      SortMembers(s[1..]);
      InsertMembers(s[0], Sort(s[1..]));
    }
  }

  lemma {:induction false} SortOrdered(s: seq<Record>)
    requires Distinct(s)
    ensures Ordered(Sort(s))
  {
    if s != [] {
      SortOrdered(s[1..]);
      SortMembers(s[1..]);
      assert s[0] !in s[1..];
      InsertOrdered(s[0], Sort(s[1..]));
    }
  }

  ghost predicate SameMembers(a: seq<Record>, b: seq<Record>) {
    forall x :: x in a <==> x in b
  }

  lemma OrderedHead(a: seq<Record>, b: seq<Record>)
    requires Ordered(a) && Ordered(b) && SameMembers(a, b) && a != []
    ensures b != [] && a[0] == b[0]
  {
    assert a[0] in b && b[0] in a;
    var i :| 0 <= i < |b| && b[i] == a[0];
    var j :| 0 <= j < |a| && a[j] == b[0];
    if i > 0 && j > 0 { BeforeOrder(a[0], b[0], a[0]); }
  }

  lemma OrderedTail(s: seq<Record>)
    requires Ordered(s) && s != []
    ensures Ordered(s[1..]) && forall x :: x in s[1..] <==> x in s && x != s[0]
  {
    forall j | 0 < j < |s| ensures s[j] != s[0] { BeforeOrder(s[0], s[j], s[0]); }
    forall x | x in s && x != s[0] ensures x in s[1..] {
      var k :| 0 <= k < |s| && s[k] == x;
      assert s[1..][k - 1] == x;
    }
  }

  // There is only one way to put a set of records in order.
  lemma {:induction false} OrderUnique(a: seq<Record>, b: seq<Record>)
    requires Ordered(a) && Ordered(b) && SameMembers(a, b)
    ensures a == b
  {
    if b != [] { OrderedHead(b, a); }
    if a != [] {
      OrderedHead(a, b);
      OrderedTail(a);
      OrderedTail(b);
      OrderUnique(a[1..], b[1..]);
      assert a == [a[0]] + a[1..] && b == [b[0]] + b[1..];
    }
  }

  // Entries with distinct names have distinct sort keys, although directories sort with a final '/'.
  lemma KeysDiffer(tool: Tool, h: Hash, e: Entry, f: Entry, prefix: Bytes)
    requires e.name != f.name && SLASH !in e.name && SLASH !in f.name
    requires RecordOf(tool, h, e, prefix).Some? && RecordOf(tool, h, f, prefix).Some?
    ensures RecordOf(tool, h, e, prefix).value.key != RecordOf(tool, h, f, prefix).value.key
  {
    var k, l := RecordOf(tool, h, e, prefix).value.key, RecordOf(tool, h, f, prefix).value.key;
    if e.node.Dir? && f.node.Dir? {
      assert k[..|k| - 1] == e.name && l[..|l| - 1] == f.name;
    } else if e.node.Dir? {
      assert k[|e.name|] == SLASH;
    } else if f.node.Dir? {
      assert l[|f.name|] == SLASH;
    }
  }

  lemma {:induction false} RecordsDistinct(tool: Tool, h: Hash, entries: seq<Entry>, top: bool, prefix: Bytes)
    requires Valid(entries) && Records(tool, h, entries, top, prefix).Some?
    ensures Distinct(Records(tool, h, entries, top, prefix).value)
    decreases entries
  {
    if entries != [] {
      RecordsDistinct(tool, h, entries[1..], top, prefix);
      var rest := Records(tool, h, entries[1..], top, prefix).value;
      if !Skipped(tool, top, entries[0].name) {
        var r := RecordOf(tool, h, entries[0], prefix).value;
        forall x | x in rest ensures x != r {
          var f := RecordsFrom(tool, h, entries[1..], top, prefix, x);
          ValidEntry(entries, f);
          KeysDiffer(tool, h, entries[0], f, prefix);
        }
        assert Records(tool, h, entries, top, prefix).value == [r] + rest;
        assert r !in rest;
      }
    }
  }

  // ---------- Equal trees have equal identities ----------

  lemma {:induction false} SameRecord(tool: Tool, tool': Tool, h: Hash, e: Entry, f: Entry, prefix: Bytes)
    requires e.name == f.name && CanonNode(tool, e, prefix).Some?
             && CanonNode(tool, e, prefix) == CanonNode(tool', f, prefix)
    requires (e.node.Dir? ==> Valid(e.node.entries)) && (f.node.Dir? ==> Valid(f.node.entries))
    ensures RecordOf(tool, h, e, prefix) == RecordOf(tool', h, f, prefix)
    decreases e, 2
  {
    if e.node.Dir? {
      var path := prefix + e.name + [SLASH];
      SameId(tool, tool', h, e.node.entries, f.node.entries, false, path);
    }
  }

  lemma {:induction false} RecordsInclude(tool: Tool, tool': Tool, h: Hash, a: seq<Entry>, b: seq<Entry>, top: bool,
      prefix: Bytes, r: Record)
    requires Valid(a) && Valid(b) && Canon(tool, a, top, prefix).Some?
             && Canon(tool, a, top, prefix) == Canon(tool', b, top, prefix)
    requires Records(tool, h, a, top, prefix).Some? && Records(tool', h, b, top, prefix).Some?
    requires r in Records(tool, h, a, top, prefix).value
    ensures r in Records(tool', h, b, top, prefix).value
    decreases a, 0
  {
    var e := RecordsFrom(tool, h, a, top, prefix, r);
    CanonHas(tool, a, top, prefix, e);
    var f := CanonFrom(tool', b, top, prefix, Item(e.name, CanonNode(tool, e, prefix).value));
    ValidEntry(a, e);
    ValidEntry(b, f);
    SameRecord(tool, tool', h, e, f, prefix);
    RecordsHave(tool', h, b, top, prefix, f);
  }

  lemma {:induction false} RecordsIncluded(tool: Tool, tool': Tool, h: Hash, a: seq<Entry>, b: seq<Entry>, top: bool,
      prefix: Bytes, r: Record)
    requires Valid(a) && Valid(b) && Canon(tool, a, top, prefix).Some?
             && Canon(tool, a, top, prefix) == Canon(tool', b, top, prefix)
    requires Records(tool, h, a, top, prefix).Some? && Records(tool', h, b, top, prefix).Some?
    requires r in Records(tool', h, b, top, prefix).value
    ensures r in Records(tool, h, a, top, prefix).value
    decreases a, 0
  {
    var f := RecordsFrom(tool', h, b, top, prefix, r);
    CanonHas(tool', b, top, prefix, f);
    var e := CanonFrom(tool, a, top, prefix, Item(f.name, CanonNode(tool', f, prefix).value));
    ValidEntry(a, e);
    ValidEntry(b, f);
    SameRecord(tool, tool', h, e, f, prefix);
    RecordsHave(tool, h, a, top, prefix, e);
  }

  /** The identity is a function of the tree alone: directory order, other permission bits, a skipped
      .git and normalised line endings cannot change it, whatever the hash. */
  lemma {:induction false} SameId(tool: Tool, tool': Tool, h: Hash, a: seq<Entry>, b: seq<Entry>, top: bool,
      prefix: Bytes)
    requires Valid(a) && Valid(b) && Canon(tool, a, top, prefix).Some?
             && Canon(tool, a, top, prefix) == Canon(tool', b, top, prefix)
    ensures Id(tool, h, a, top, prefix).Some? && Id(tool, h, a, top, prefix) == Id(tool', h, b, top, prefix)
    decreases a, 1
  {
    IdIffCanon(tool, h, a, top, prefix);
    IdIffCanon(tool', h, b, top, prefix);
    var ra, rb := Records(tool, h, a, top, prefix).value, Records(tool', h, b, top, prefix).value;
    forall r | r in ra ensures r in rb { RecordsInclude(tool, tool', h, a, b, top, prefix, r); }
    forall r | r in rb ensures r in ra { RecordsIncluded(tool, tool', h, a, b, top, prefix, r); }
    RecordsDistinct(tool, h, a, top, prefix);
    RecordsDistinct(tool', h, b, top, prefix);
    SortOrdered(ra);
    SortOrdered(rb);
    SortMembers(ra);
    SortMembers(rb);
    OrderUnique(Sort(ra), Sort(rb));
  }

  // ---------- Decoding ----------

  // The part before the first separator, and the part behind it.
  lemma SplitAt(x: Bytes, y: Bytes, u: Bytes, v: Bytes, sep: Byte)
    requires sep !in x && sep !in y && x + [sep] + u == y + [sep] + v
    ensures x == y && u == v
  {
    var s := x + [sep] + u;
    assert s[|x|] == sep && s[|y|] == sep;
    assert forall i :: 0 <= i < |x| ==> s[i] == x[i] && s[i] != sep;
    assert forall i :: 0 <= i < |y| ==> s[i] == y[i] && s[i] != sep;
    assert x == s[..|x|] && y == s[..|y|] && u == s[|x| + 1..] && v == s[|y| + 1..];
  }

  predicate Mode(m: Bytes) {
    m == MODE_LINK || m == MODE_TREE || m == MODE_EXEC || m == MODE_FILE
  }

  lemma ModesPlain(m: Bytes)
    requires Mode(m)
    ensures SPACE !in m
  {
  }

  // An entry of a tree object can be read off the front of the object in one way only.
  lemma PayloadDecodes(m: Bytes, n: Bytes, o: Digest, u: Bytes, m': Bytes, n': Bytes, o': Digest, u': Bytes)
    requires Mode(m) && Mode(m') && NUL !in n && NUL !in n'
    requires Payload(m, n, o) + u == Payload(m', n', o') + u'
    ensures m == m' && n == n' && o == o' && u == u'
  {
    ModesPlain(m);
    ModesPlain(m');
    assert Payload(m, n, o) + u == m + [SPACE] + (n + [NUL] + (o + u));
    assert Payload(m', n', o') + u' == m' + [SPACE] + (n' + [NUL] + (o' + u'));
    SplitAt(m, m', n + [NUL] + (o + u), n' + [NUL] + (o' + u'), SPACE);
    SplitAt(n, n', o + u, o' + u', NUL);
    assert o == (o + u)[..20] && o' == (o' + u')[..20] && u == (o + u)[20..] && u' == (o' + u')[20..];
  }

  lemma {:induction false} DigitsPlain(n: nat)
    ensures NUL !in Digits(n) && SPACE !in Digits(n)
  {
    if n >= 10 { DigitsPlain(n / 10); }
  }

  lemma KindsPlain()
    ensures SPACE !in BLOB && SPACE !in TREE
  {
  }

  lemma Regroup(a: Bytes, b: Bytes, c: Bytes, d: Bytes)
    ensures a + [SPACE] + b + c + d == a + [SPACE] + (b + c + d)
  {
  }

  // The hashed bytes determine the kind of the object and its content.
  lemma FramedDecodes(kind: Bytes, data: Bytes, kind': Bytes, data': Bytes)
    requires kind in {BLOB, TREE} && kind' in {BLOB, TREE} && Framed(kind, data) == Framed(kind', data')
    ensures kind == kind' && data == data'
  {
    DigitsPlain(|data|);
    DigitsPlain(|data'|);
    Regroup(kind, Digits(|data|), [NUL], data);
    Regroup(kind', Digits(|data'|), [NUL], data');
    KindsPlain();
    var x, x' := Digits(|data|) + [NUL] + data, Digits(|data'|) + [NUL] + data';
    SplitAt(kind, kind', x, x', SPACE);
    SplitAt(Digits(|data|), Digits(|data'|), data, data', NUL);
  }

  // The fields of a record.
  datatype Parts = Parts(mode: Bytes, name: Bytes, oid: Digest)

  ghost predicate Reads(r: Record, p: Parts) {
    Mode(p.mode) && NUL !in p.name && r.payload == Payload(p.mode, p.name, p.oid)
  }

  ghost predicate CanRead(r: Record) {
    exists p :: Reads(r, p)
  }

  ghost predicate Readable(s: seq<Record>) {
    forall r :: r in s ==> CanRead(r)
  }

  lemma JoinNonEmpty(s: seq<Record>)
    requires Readable(s) && s != []
    ensures Join(s) != [] && CanRead(s[0])
  {
    assert CanRead(s[0]);
  }

  lemma {:induction false} JoinDecodes(a: seq<Record>, b: seq<Record>)
    requires Readable(a) && Readable(b) && Join(a) == Join(b)
    ensures |a| == |b| && forall i :: 0 <= i < |a| ==> a[i].payload == b[i].payload
  {
    if a != [] { JoinNonEmpty(a); }
    if b != [] { JoinNonEmpty(b); }
    if a != [] && b != [] {
      var p :| Reads(a[0], p);
      var q :| Reads(b[0], q);
      PayloadDecodes(p.mode, p.name, p.oid, Join(a[1..]), q.mode, q.name, q.oid, Join(b[1..]));
      JoinDecodes(a[1..], b[1..]);
      forall i | 0 <= i < |a| ensures a[i].payload == b[i].payload {
        if i > 0 { assert a[1..][i - 1].payload == b[1..][i - 1].payload; }
      }
    }
  }

  // ---------- Equal identities mean equal trees ----------

  // Everything that is hashed for a tree.
  ghost function EntryInputs(tool: Tool, h: Hash, e: Entry, prefix: Bytes): set<Bytes>
    decreases e, 2
  {
    match e.node
    case Link(target) => {Framed(BLOB, target)}
    case File(_, data) => {Framed(BLOB, Content(tool, prefix + e.name, data))}
    case Dir(entries) => Inputs(tool, h, entries, false, prefix + e.name + [SLASH])
    case Special => {}
  }

  ghost function ListInputs(tool: Tool, h: Hash, entries: seq<Entry>, top: bool, prefix: Bytes): set<Bytes>
    decreases entries, 0
  {
    if entries == [] then {}
    else (if Skipped(tool, top, entries[0].name) then {} else EntryInputs(tool, h, entries[0], prefix))
         + ListInputs(tool, h, entries[1..], top, prefix)
  }

  ghost function Inputs(tool: Tool, h: Hash, entries: seq<Entry>, top: bool, prefix: Bytes): set<Bytes>
    decreases entries, 1
  {
    ListInputs(tool, h, entries, top, prefix)
    + match Records(tool, h, entries, top, prefix)
      case None => {}
      case Some(records) => {Framed(TREE, Join(Sort(records)))}
  }

  ghost predicate CollisionFree(h: Hash, inputs: set<Bytes>) {
    forall x, y :: x in inputs && y in inputs && h(x) == h(y) ==> x == y
  }

  lemma {:induction false} InputsHave(tool: Tool, h: Hash, entries: seq<Entry>, top: bool, prefix: Bytes, e: Entry)
    requires Kept(tool, entries, top, e)
    ensures EntryInputs(tool, h, e, prefix) <= ListInputs(tool, h, entries, top, prefix)
    decreases entries
  {
    if e != entries[0] { assert e in entries[1..]; InputsHave(tool, h, entries[1..], top, prefix, e); }
  }

  ghost function PartsOf(tool: Tool, h: Hash, e: Entry, prefix: Bytes): Parts
    requires RecordOf(tool, h, e, prefix).Some?
  {
    match e.node
    case Link(target) => Parts(MODE_LINK, e.name, ObjectId(h, BLOB, target))
    case Dir(entries) => Parts(MODE_TREE, e.name, Id(tool, h, entries, false, prefix + e.name + [SLASH]).value)
    case File(perm, data) =>
      Parts(if Executable(perm) then MODE_EXEC else MODE_FILE, e.name,
          ObjectId(h, BLOB, Content(tool, prefix + e.name, data)))
  }

  lemma RecordReads(tool: Tool, h: Hash, e: Entry, prefix: Bytes)
    requires RecordOf(tool, h, e, prefix).Some? && NUL !in e.name
    ensures Reads(RecordOf(tool, h, e, prefix).value, PartsOf(tool, h, e, prefix))
            && CanRead(RecordOf(tool, h, e, prefix).value)
  {
    assert Reads(RecordOf(tool, h, e, prefix).value, PartsOf(tool, h, e, prefix));
  }

  lemma RecordsReadable(tool: Tool, h: Hash, entries: seq<Entry>, top: bool, prefix: Bytes)
    requires Valid(entries) && Records(tool, h, entries, top, prefix).Some?
    ensures Readable(Sort(Records(tool, h, entries, top, prefix).value))
  {
    var rs := Records(tool, h, entries, top, prefix).value;
    SortMembers(rs);
    forall r | r in Sort(rs) ensures CanRead(r) {
      var e := RecordsFrom(tool, h, entries, top, prefix, r);
      ValidEntry(entries, e);
      RecordReads(tool, h, e, prefix);
    }
  }

  lemma ModesDiffer()
    ensures MODE_LINK != MODE_TREE && MODE_LINK != MODE_EXEC && MODE_LINK != MODE_FILE
    ensures MODE_TREE != MODE_EXEC && MODE_TREE != MODE_FILE && MODE_EXEC != MODE_FILE
  {
    assert MODE_LINK[1] != MODE_TREE[1] && MODE_LINK[1] != MODE_EXEC[1] && MODE_LINK[1] != MODE_FILE[1];
    assert MODE_TREE[0] != MODE_EXEC[0] && MODE_TREE[0] != MODE_FILE[0] && MODE_EXEC[3] != MODE_FILE[3];
  }

  // Equal payloads carry the same name, the same mode and the same object.
  lemma SameParts(tool: Tool, tool': Tool, h: Hash, e: Entry, f: Entry, prefix: Bytes)
    requires RecordOf(tool, h, e, prefix).Some? && RecordOf(tool', h, f, prefix).Some? && NUL !in e.name
             && NUL !in f.name
    requires RecordOf(tool, h, e, prefix).value.payload == RecordOf(tool', h, f, prefix).value.payload
    ensures PartsOf(tool, h, e, prefix) == PartsOf(tool', h, f, prefix)
  {
    RecordReads(tool, h, e, prefix);
    RecordReads(tool', h, f, prefix);
    var p, q := PartsOf(tool, h, e, prefix), PartsOf(tool', h, f, prefix);
    var x := Payload(p.mode, p.name, p.oid);
    assert x + [] == x;
    PayloadDecodes(p.mode, p.name, p.oid, [], q.mode, q.name, q.oid, []);
  }

  lemma {:induction false} SameNode(tool: Tool, tool': Tool, h: Hash, e: Entry, f: Entry, prefix: Bytes)
    requires RecordOf(tool, h, e, prefix).Some? && RecordOf(tool', h, f, prefix).Some? && NUL !in e.name
             && NUL !in f.name
    requires RecordOf(tool, h, e, prefix).value.payload == RecordOf(tool', h, f, prefix).value.payload
    requires (e.node.Dir? ==> Valid(e.node.entries)) && (f.node.Dir? ==> Valid(f.node.entries))
    requires CollisionFree(h, EntryInputs(tool, h, e, prefix) + EntryInputs(tool', h, f, prefix))
    ensures e.name == f.name && CanonNode(tool, e, prefix) == CanonNode(tool', f, prefix)
    decreases e, 2
  {
    SameParts(tool, tool', h, e, f, prefix);
    ModesDiffer();
    match e.node {
      case Dir(entries) => SameTree(tool, tool', h, entries, f.node.entries, false, prefix + e.name + [SLASH]);
      case Link(target) => FramedDecodes(BLOB, target, BLOB, f.node.target);
      case File(_, data) =>
        FramedDecodes(BLOB, Content(tool, prefix + e.name, data), BLOB, Content(tool', prefix + f.name, f.node.data));
    }
  }

  // The sorted records of two trees with equal identities carry the same payloads.
  lemma SamePayloads(tool: Tool, tool': Tool, h: Hash, a: seq<Entry>, b: seq<Entry>, top: bool, prefix: Bytes)
    requires Valid(a) && Valid(b) && Id(tool, h, a, top, prefix).Some?
             && Id(tool, h, a, top, prefix) == Id(tool', h, b, top, prefix)
    requires CollisionFree(h, Inputs(tool, h, a, top, prefix) + Inputs(tool', h, b, top, prefix))
    ensures var x, y := Sort(Records(tool, h, a, top, prefix).value), Sort(Records(tool', h, b, top, prefix).value);
      |x| == |y| && forall i :: 0 <= i < |x| ==> x[i].payload == y[i].payload
  {
    var x, y := Sort(Records(tool, h, a, top, prefix).value), Sort(Records(tool', h, b, top, prefix).value);
    assert h(Framed(TREE, Join(x))) == h(Framed(TREE, Join(y)));
    assert Framed(TREE, Join(x)) in Inputs(tool, h, a, top, prefix)
           && Framed(TREE, Join(y)) in Inputs(tool', h, b, top, prefix);
    FramedDecodes(TREE, Join(x), TREE, Join(y));
    RecordsReadable(tool, h, a, top, prefix);
    RecordsReadable(tool', h, b, top, prefix);
    JoinDecodes(x, y);
  }

  ghost predicate Comparable(tool: Tool, tool': Tool, h: Hash, a: seq<Entry>, b: seq<Entry>, top: bool, prefix: Bytes) {
    && Valid(a) && Valid(b)
    && Records(tool, h, a, top, prefix).Some? && Records(tool', h, b, top, prefix).Some?
    && Canon(tool, a, top, prefix).Some? && Canon(tool', b, top, prefix).Some?
    && CollisionFree(h, Inputs(tool, h, a, top, prefix) + Inputs(tool', h, b, top, prefix))
    && var x, y := Sort(Records(tool, h, a, top, prefix).value), Sort(Records(tool', h, b, top, prefix).value);
       |x| == |y| && forall i :: 0 <= i < |x| ==> x[i].payload == y[i].payload
  }

  // Two entries, one of each tree, whose records have equal payloads.
  lemma {:induction false} Matched(tool: Tool, tool': Tool, h: Hash, a: seq<Entry>, b: seq<Entry>, top: bool,
      prefix: Bytes, e: Entry, f: Entry)
    requires Comparable(tool, tool', h, a, b, top, prefix) && Kept(tool, a, top, e) && Kept(tool', b, top, f)
    requires RecordOf(tool, h, e, prefix).Some? && RecordOf(tool', h, f, prefix).Some?
    requires RecordOf(tool, h, e, prefix).value.payload == RecordOf(tool', h, f, prefix).value.payload
    ensures e.name == f.name && CanonNode(tool, e, prefix) == CanonNode(tool', f, prefix)
    decreases a, 0
  {
    ValidEntry(a, e);
    ValidEntry(b, f);
    InputsHave(tool, h, a, top, prefix, e);
    InputsHave(tool', h, b, top, prefix, f);
    SameNode(tool, tool', h, e, f, prefix);
  }

  lemma {:induction false} ItemGoes(tool: Tool, tool': Tool, h: Hash, a: seq<Entry>, b: seq<Entry>, top: bool,
      prefix: Bytes, item: Item)
    requires Comparable(tool, tool', h, a, b, top, prefix) && item in Canon(tool, a, top, prefix).value
    ensures item in Canon(tool', b, top, prefix).value
    decreases a, 1
  {
    var ra, rb := Records(tool, h, a, top, prefix).value, Records(tool', h, b, top, prefix).value;
    SortMembers(ra);
    SortMembers(rb);
    var e := CanonFrom(tool, a, top, prefix, item);
    RecordsHave(tool, h, a, top, prefix, e);
    var i :| 0 <= i < |Sort(ra)| && Sort(ra)[i] == RecordOf(tool, h, e, prefix).value;
    assert Sort(rb)[i] in Sort(rb);
    var f := RecordsFrom(tool', h, b, top, prefix, Sort(rb)[i]);
    Matched(tool, tool', h, a, b, top, prefix, e, f);
    CanonHas(tool', b, top, prefix, f);
  }

  lemma {:induction false} ItemComes(tool: Tool, tool': Tool, h: Hash, a: seq<Entry>, b: seq<Entry>, top: bool,
      prefix: Bytes, item: Item)
    requires Comparable(tool, tool', h, a, b, top, prefix) && item in Canon(tool', b, top, prefix).value
    ensures item in Canon(tool, a, top, prefix).value
    decreases a, 1
  {
    var ra, rb := Records(tool, h, a, top, prefix).value, Records(tool', h, b, top, prefix).value;
    SortMembers(ra);
    SortMembers(rb);
    var f := CanonFrom(tool', b, top, prefix, item);
    RecordsHave(tool', h, b, top, prefix, f);
    var i :| 0 <= i < |Sort(rb)| && Sort(rb)[i] == RecordOf(tool', h, f, prefix).value;
    assert Sort(ra)[i] in Sort(ra);
    var e := RecordsFrom(tool, h, a, top, prefix, Sort(ra)[i]);
    Matched(tool, tool', h, a, b, top, prefix, e, f);
    CanonHas(tool, a, top, prefix, e);
  }

  /** Equal identities mean equal trees, provided no two different inputs among those hashed for the two
      trees collide: at every depth the same names, modes, link targets and contents. */
  lemma {:induction false} SameTree(tool: Tool, tool': Tool, h: Hash, a: seq<Entry>, b: seq<Entry>, top: bool,
      prefix: Bytes)
    requires Valid(a) && Valid(b) && Id(tool, h, a, top, prefix).Some?
             && Id(tool, h, a, top, prefix) == Id(tool', h, b, top, prefix)
    requires CollisionFree(h, Inputs(tool, h, a, top, prefix) + Inputs(tool', h, b, top, prefix))
    ensures Canon(tool, a, top, prefix).Some? && Canon(tool, a, top, prefix) == Canon(tool', b, top, prefix)
    decreases a, 2
  {
    SamePayloads(tool, tool', h, a, b, top, prefix);
    IdIffCanon(tool, h, a, top, prefix);
    IdIffCanon(tool', h, b, top, prefix);
    var x, y := Canon(tool, a, top, prefix).value, Canon(tool', b, top, prefix).value;
    forall item | item in x ensures item in y { ItemGoes(tool, tool', h, a, b, top, prefix, item); }
    forall item | item in y ensures item in x { ItemComes(tool, tool', h, a, b, top, prefix, item); }
    assert x == y;
  }

  /** The identity identifies the tree, whichever of the two tools computes which: both directions. */
  lemma IdsIdentifyTrees(tool: Tool, tool': Tool, h: Hash, a: seq<Entry>, b: seq<Entry>)
    requires Valid(a) && Valid(b)
    requires CollisionFree(h, Inputs(tool, h, a, true, []) + Inputs(tool', h, b, true, []))
    ensures Id(tool, h, a, true, []) == Id(tool', h, b, true, []) <==>
              Canon(tool, a, true, []) == Canon(tool', b, true, [])
  {
    IdIffCanon(tool, h, a, true, []);
    IdIffCanon(tool', h, b, true, []);
    if Canon(tool, a, true, []).Some? && Canon(tool', b, true, []).Some? {
      if Id(tool, h, a, true, []) == Id(tool', h, b, true, []) { SameTree(tool, tool', h, a, b, true, []); }
      if Canon(tool, a, true, []) == Canon(tool', b, true, []) { SameId(tool, tool', h, a, b, true, []); }
    }
  }

  /** Directory order does not matter. */
  lemma OrderDoesNotMatter(tool: Tool, h: Hash, a: seq<Entry>, b: seq<Entry>)
    requires Valid(a) && Valid(b) && forall e :: e in a <==> e in b
    ensures Id(tool, h, a, true, []) == Id(tool, h, b, true, [])
  {
    IdIffCanon(tool, h, a, true, []);
    IdIffCanon(tool, h, b, true, []);
    SupportedIff(tool, a, true, []);
    SupportedIff(tool, b, true, []);
    if Canon(tool, a, true, []).Some? {
      var x, y := Canon(tool, a, true, []).value, Canon(tool, b, true, []).value;
      forall item | item in x ensures item in y {
        var e := CanonFrom(tool, a, true, [], item);
        CanonHas(tool, b, true, [], e);
      }
      forall item | item in y ensures item in x {
        var e := CanonFrom(tool, b, true, [], item);
        CanonHas(tool, a, true, [], e);
      }
      assert x == y;
      SameId(tool, tool, h, a, b, true, []);
    }
  }

  /** An unsupported entry is an error, wherever it is and in whatever order it is met. */
  lemma {:induction false} SupportedIff(tool: Tool, entries: seq<Entry>, top: bool, prefix: Bytes)
    ensures Canon(tool, entries, top, prefix).Some? <==>
              forall e :: Kept(tool, entries, top, e) ==> CanonNode(tool, e, prefix).Some?
    decreases entries
  {
    if entries != [] {
      SupportedIff(tool, entries[1..], top, prefix);
      forall e ensures Kept(tool, entries, top, e) <==>
                         (e == entries[0] && !Skipped(tool, top, e.name)) || Kept(tool, entries[1..], top, e) {}
    }
  }

  // ---------- The two implementations ----------

  predicate HasCrlf(data: Bytes) {
    exists i | 0 <= i < |data| - 1 :: data[i] == CR && data[i + 1] == LF
  }

  lemma HasCrlfTail(data: Bytes)
    requires data != [] && !(|data| >= 2 && data[0] == CR && data[1] == LF)
    ensures HasCrlf(data) <==> HasCrlf(data[1..])
  {
    var rest := data[1..];
    if HasCrlf(data) {
      var i :| 0 <= i < |data| - 1 && data[i] == CR && data[i + 1] == LF;
      assert rest[i - 1] == CR && rest[i] == LF;
    }
    if HasCrlf(rest) {
      var i :| 0 <= i < |rest| - 1 && rest[i] == CR && rest[i + 1] == LF;
      assert data[i + 1] == CR && data[i + 2] == LF;
    }
  }

  lemma {:induction false} ToLfShrinks(data: Bytes)
    ensures |ToLf(data)| <= |data| && (ToLf(data) == data <==> !HasCrlf(data))
  {
    if |data| >= 2 && data[0] == CR && data[1] == LF {
      ToLfShrinks(data[2..]);
    } else if data != [] {
      HasCrlfTail(data);
      ToLfShrinks(data[1..]);
      assert data == [data[0]] + data[1..];
      assert ToLf(data)[1..] == ToLf(data[1..]);
    }
  }

  // No .git below the top, and no CR LF in the four normalised files.
  predicate PlainEntry(e: Entry, top: bool, prefix: Bytes)
    decreases e, 2
  {
    && (e.name == GIT ==> top)
    && match e.node
       case File(_, data) => prefix + e.name in CRLF_PATHS ==> !HasCrlf(data)
       case Dir(entries) => PlainTree(entries, false, prefix + e.name + [SLASH])
       case Link(_) => true
       case Special => true
  }

  predicate PlainTree(entries: seq<Entry>, top: bool, prefix: Bytes)
    decreases entries, 1
  {
    entries == []
    || ((Skipped(Curl, top, entries[0].name) || PlainEntry(entries[0], top, prefix))
        && PlainTree(entries[1..], top, prefix))
  }

  lemma {:induction false} PlainNodesAgree(h: Hash, e: Entry, top: bool, prefix: Bytes)
    requires PlainEntry(e, top, prefix)
    ensures RecordOf(Curl, h, e, prefix) == RecordOf(Libffi, h, e, prefix)
    ensures CanonNode(Curl, e, prefix) == CanonNode(Libffi, e, prefix)
    decreases e, 2
  {
    match e.node {
      case Dir(entries) => PlainTreesAgree(h, entries, false, prefix + e.name + [SLASH]);
      case File(_, data) => ToLfShrinks(data);
      case Link(_) =>
      case Special =>
    }
  }

  /** The two implementations agree, for every hash, on trees with no nested .git and no CR LF in the four
      normalised files. */
  lemma {:induction false} PlainTreesAgree(h: Hash, entries: seq<Entry>, top: bool, prefix: Bytes)
    requires PlainTree(entries, top, prefix)
    ensures Records(Curl, h, entries, top, prefix) == Records(Libffi, h, entries, top, prefix)
    ensures Id(Curl, h, entries, top, prefix) == Id(Libffi, h, entries, top, prefix)
    ensures Canon(Curl, entries, top, prefix) == Canon(Libffi, entries, top, prefix)
    decreases entries, 1
  {
    if entries != [] {
      PlainTreesAgree(h, entries[1..], top, prefix);
      if !Skipped(Curl, top, entries[0].name) { PlainNodesAgree(h, entries[0], top, prefix); }
    }
  }

  lemma {:induction false} SameNameSameEntry(entries: seq<Entry>, e: Entry, f: Entry)
    requires Valid(entries) && e in entries && f in entries && e.name == f.name
    ensures e == f
    decreases entries
  {
    if e != entries[0] && f != entries[0] {
      assert e in entries[1..] && f in entries[1..];
      SameNameSameEntry(entries[1..], e, f);
    }
  }

  lemma {:induction false} PlainIf(entries: seq<Entry>, top: bool, prefix: Bytes)
    requires forall e :: Kept(Curl, entries, top, e) ==> PlainEntry(e, top, prefix)
    ensures PlainTree(entries, top, prefix)
    decreases entries
  {
    if entries != [] {
      forall e | Kept(Curl, entries[1..], top, e) ensures PlainEntry(e, top, prefix) {
        assert Kept(Curl, entries, top, e);
      }
      PlainIf(entries[1..], top, prefix);
      if !Skipped(Curl, top, entries[0].name) { assert Kept(Curl, entries, top, entries[0]); }
    }
  }

  lemma {:induction false} AgreeingEntryIsPlain(entries: seq<Entry>, top: bool, prefix: Bytes, e: Entry)
    requires Valid(entries) && Kept(Curl, entries, top, e)
    requires Canon(Curl, entries, top, prefix).Some?
             && Canon(Curl, entries, top, prefix) == Canon(Libffi, entries, top, prefix)
    ensures PlainEntry(e, top, prefix)
    decreases entries, 0
  {
    CanonHas(Curl, entries, top, prefix, e);
    var item := Item(e.name, CanonNode(Curl, e, prefix).value);
    var f := CanonFrom(Libffi, entries, top, prefix, item);
    SameNameSameEntry(entries, e, f);
    ValidEntry(entries, e);
    match e.node {
      case Dir(inner) => AgreeOnlyIfPlain(inner, false, prefix + e.name + [SLASH]);
      case File(_, data) => ToLfShrinks(data);
      case Link(_) =>
      case Special =>
    }
  }

  lemma {:induction false} AgreeOnlyIfPlain(entries: seq<Entry>, top: bool, prefix: Bytes)
    requires Valid(entries)
    requires Canon(Curl, entries, top, prefix).Some?
             && Canon(Curl, entries, top, prefix) == Canon(Libffi, entries, top, prefix)
    ensures PlainTree(entries, top, prefix)
    decreases entries, 1
  {
    forall e | Kept(Curl, entries, top, e) ensures PlainEntry(e, top, prefix) {
      AgreeingEntryIsPlain(entries, top, prefix, e);
    }
    PlainIf(entries, top, prefix);
  }

  /** On a supported tree the two implementations see the same tree if and only if it has no nested .git
      and no CR LF in the four normalised files. */
  lemma ToolsAgreeIffPlain(entries: seq<Entry>)
    requires Valid(entries) && Canon(Curl, entries, true, []).Some?
    ensures Canon(Curl, entries, true, []) == Canon(Libffi, entries, true, []) <==> PlainTree(entries, true, [])
  {
    if PlainTree(entries, true, []) { PlainTreesAgree(_ => seq(20, _ => 0), entries, true, []); }
    if Canon(Curl, entries, true, []) == Canon(Libffi, entries, true, []) { AgreeOnlyIfPlain(entries, true, []); }
  }

  /** The same for what they compute, unless two different inputs among those hashed collide: the two results are
      equal if and only if the tree is plain, or has an unsupported entry outside .git, which both reject. */
  lemma IdsAgreeIffPlain(h: Hash, entries: seq<Entry>)
    requires Valid(entries)
    requires CollisionFree(h, Inputs(Curl, h, entries, true, []) + Inputs(Libffi, h, entries, true, []))
    ensures Id(Curl, h, entries, true, []) == Id(Libffi, h, entries, true, []) <==>
              PlainTree(entries, true, []) || Canon(Libffi, entries, true, []).None?
  {
    IdsIdentifyTrees(Curl, Libffi, h, entries, entries);
    if PlainTree(entries, true, []) { PlainTreesAgree(h, entries, true, []); }
    if Canon(Libffi, entries, true, []).None? { CurlSupportsLess(entries, true, []); }
    if Canon(Curl, entries, true, []).Some? { ToolsAgreeIffPlain(entries); }
  }

  // What libffi_source.py rejects, verify_curl_source.py rejects.
  lemma {:induction false} CurlSupportsLess(entries: seq<Entry>, top: bool, prefix: Bytes)
    ensures Canon(Libffi, entries, top, prefix).None? ==> Canon(Curl, entries, top, prefix).None?
    decreases entries
  {
    if entries != [] {
      CurlSupportsLess(entries[1..], top, prefix);
      CurlSupportsLessOf(entries[0], prefix);
    }
  }

  lemma {:induction false} CurlSupportsLessOf(e: Entry, prefix: Bytes)
    ensures CanonNode(Libffi, e, prefix).None? ==> CanonNode(Curl, e, prefix).None?
    decreases e
  {
    match e.node {
      case Dir(entries) => CurlSupportsLess(entries, false, prefix + e.name + [SLASH]);
      case File(_, _) =>
      case Link(_) =>
      case Special =>
    }
  }

  // A directory that holds nothing but an empty .git.
  const NESTED_GIT := [Entry(Ascii("a"), Dir([Entry(GIT, Dir([]))]))]

  /** Such trees exist: with a nested .git, two identities without a collision differ. */
  lemma NestedGitTellsApart(h: Hash)
    requires CollisionFree(h, Inputs(Curl, h, NESTED_GIT, true, []) + Inputs(Libffi, h, NESTED_GIT, true, []))
    ensures Valid(NESTED_GIT) && Id(Curl, h, NESTED_GIT, true, []) != Id(Libffi, h, NESTED_GIT, true, [])
  {
    NestedGit();
    IdsAgreeIffPlain(h, NESTED_GIT);
  }

  lemma NestedGit()
    ensures Valid(NESTED_GIT) && Canon(Libffi, NESTED_GIT, true, []).Some? && !PlainTree(NESTED_GIT, true, [])
  {
    var inner, path := [Entry(GIT, Dir([]))], [] + Ascii("a") + [SLASH];
    assert SLASH !in GIT && NUL !in GIT && SLASH !in Ascii("a") && NUL !in Ascii("a");
    assert GIT[0] != Ascii("a")[0];
    assert GIT != [] && inner[1..] == [];
    assert Valid(inner);
    assert Canon(Libffi, inner, false, path) == Some({});
    assert !PlainEntry(inner[0], false, path);
    assert !PlainTree(inner, false, path);
  }

  // ---------- Hexadecimal digests ----------

  const HEX := "0123456789abcdef"

  // bytes.hex()
  function ToHex(d: Bytes): string {
    if d == [] then "" else [HEX[d[0] / 16], HEX[d[0] % 16]] + ToHex(d[1..])
  }

  function HexDigit(c: char): (r: Option<nat>)
    ensures r.Some? ==> r.value < 16
  {
    if '0' <= c <= '9' then Some(c as int - '0' as int)
    else if 'a' <= c <= 'f' then Some(c as int - 'a' as int + 10)
    else if 'A' <= c <= 'F' then Some(c as int - 'A' as int + 10)
    else None
  }

  // bytes.fromhex()
  function FromHex(s: string): Option<Bytes> {
    if s == "" then Some([])
    else if |s| < 2 || HexDigit(s[0]).None? || HexDigit(s[1]).None? then None
    else match FromHex(s[2..])
      case None => None
      case Some(rest) => Some([16 * HexDigit(s[0]).value + HexDigit(s[1]).value] + rest)
  }

  lemma HexOfDigit(n: nat)
    requires n < 16
    ensures HexDigit(HEX[n]) == Some(n)
  {
  }

  lemma HexPair(b: Byte, s: string)
    ensures FromHex([HEX[b / 16], HEX[b % 16]] + s) ==
            match FromHex(s) case None => None case Some(rest) => Some([b] + rest)
  {
    HexOfDigit(b / 16);
    HexOfDigit(b % 16);
    assert ([HEX[b / 16], HEX[b % 16]] + s)[2..] == s;
  }

  /** A nested identity survives the detour over its hexadecimal form. */
  lemma {:induction false} HexRoundTrip(d: Bytes)
    ensures FromHex(ToHex(d)) == Some(d)
  {
    if d != [] {
      HexRoundTrip(d[1..]);
      HexPair(d[0], ToHex(d[1..]));
      assert d == [d[0]] + d[1..];
    }
  }

  // ---------- The bytes of a tree object ----------

  // Byte k of a name, -1 behind its end.
  function ByteAt(name: Bytes, k: nat): int {
    if k < |name| then name[k] else -1
  }

  ghost predicate FirstDifference(a: Bytes, b: Bytes, k: nat) {
    (forall j: nat :: j < k ==> ByteAt(a, j) == ByteAt(b, j)) && ByteAt(a, k) < ByteAt(b, k)
  }

  /** The order of byte strings: at the first difference the smaller byte, or the end, comes first. */
  lemma {:induction false} LessIff(a: Bytes, b: Bytes)
    ensures Less(a, b) <==> exists k: nat :: FirstDifference(a, b, k)
    decreases |a|
  {
    if b == [] {
      forall k: nat ensures !FirstDifference(a, b, k) {}
    } else if a == [] {
      assert FirstDifference(a, b, 0);
    } else {
      LessIff(a[1..], b[1..]);
      if k: nat :| FirstDifference(a[1..], b[1..], k) && a[0] == b[0] { DifferenceShifts(a, b, k); }
      if k: nat :| FirstDifference(a, b, k) && k > 0 { DifferenceDrops(a, b, k); }
      if a[0] < b[0] { assert FirstDifference(a, b, 0); }
      if k: nat :| FirstDifference(a, b, k) && k > 0 { assert ByteAt(a, 0) == ByteAt(b, 0); }
    }
  }

  lemma DifferenceShifts(a: Bytes, b: Bytes, k: nat)
    requires a != [] && b != [] && a[0] == b[0] && FirstDifference(a[1..], b[1..], k)
    ensures FirstDifference(a, b, k + 1)
  {
    forall j: nat | j < k + 1 ensures ByteAt(a, j) == ByteAt(b, j) {
      if j > 0 { assert ByteAt(a[1..], j - 1) == ByteAt(b[1..], j - 1); }
    }
  }

  lemma DifferenceDrops(a: Bytes, b: Bytes, k: nat)
    requires a != [] && b != [] && k > 0 && FirstDifference(a, b, k)
    ensures a[0] == b[0] && FirstDifference(a[1..], b[1..], k - 1)
  {
    assert ByteAt(a, 0) == ByteAt(b, 0);
    forall j: nat | j < k - 1 ensures ByteAt(a[1..], j) == ByteAt(b[1..], j) {
      assert ByteAt(a, j + 1) == ByteAt(b, j + 1);
    }
  }

  // Byte k of the name of an entry, as Git compares it: a directory goes on with a '/'.
  function NameByte(e: Entry, k: nat): int {
    if k < |e.name| then e.name[k] else if k == |e.name| && e.node.Dir? then 47 else -1
  }

  ghost predicate DiffersAt(e: Entry, f: Entry, k: nat) {
    (forall j: nat :: j < k ==> NameByte(e, j) == NameByte(f, j)) && NameByte(e, k) < NameByte(f, k)
  }

  // The order of entries in a Git tree.
  ghost predicate GitBefore(e: Entry, f: Entry) {
    exists k: nat :: DiffersAt(e, f, k)
  }

  function Key(e: Entry): Bytes {
    if e.node.Dir? then e.name + [SLASH] else e.name
  }

  lemma KeyByte(e: Entry, k: nat)
    ensures ByteAt(Key(e), k) == NameByte(e, k)
  {
  }

  lemma KeysInGitOrder(e: Entry, f: Entry)
    ensures Less(Key(e), Key(f)) <==> GitBefore(e, f)
  {
    LessIff(Key(e), Key(f));
    forall k: nat ensures ByteAt(Key(e), k) == NameByte(e, k) && ByteAt(Key(f), k) == NameByte(f, k) {
      KeyByte(e, k);
      KeyByte(f, k);
    }
    forall k: nat ensures FirstDifference(Key(e), Key(f), k) <==> DiffersAt(e, f, k) {}
    if Less(Key(e), Key(f)) {
      var k: nat :| FirstDifference(Key(e), Key(f), k);
      assert DiffersAt(e, f, k);
    }
    if k: nat :| DiffersAt(e, f, k) { assert FirstDifference(Key(e), Key(f), k); }
  }

  // The number that octal digits stand for.
  function Octal(s: Bytes): int {
    if s == [] then 0 else 8 * Octal(s[..|s| - 1]) + (s[|s| - 1] as int - 48)
  }

  // Some class of users may execute the file: the lowest bit of its octal digit is set.
  predicate MayExecute(perm: nat) {
    perm % 8 in {1, 3, 5, 7} || perm / 8 % 8 in {1, 3, 5, 7} || perm / 64 % 8 in {1, 3, 5, 7}
  }

  lemma ExecutableIff(perm: nat)
    ensures Executable(perm) <==> MayExecute(perm)
  {
    LowBit(perm);
    LowBit(perm / 8);
    LowBit(perm / 64);
  }

  lemma LowBit(n: nat)
    ensures n % 2 == 1 <==> n % 8 in {1, 3, 5, 7}
  {
    var q, r, k := n / 8, n % 8, n / 2;
    assert n == 8 * q + r && n == 2 * k + n % 2;
    assert r == 2 * (k - 4 * q) + n % 2;
  }

  // The mode of an entry in a Git tree: type and, for a file, rwxr-xr-x or rw-r--r--.
  function ModeNumber(e: Entry): nat {
    match e.node
    case Link(_) => 8 * 8 * 8 * 8 * (8 * 1 + 2)                            // 0120000
    case Dir(_) => 8 * 8 * 8 * 8 * 4                                       // 0040000
    case File(perm, _) => 8 * 8 * 8 * 8 * 8 + if MayExecute(perm) then 7 * 64 + 5 * 8 + 5 else 6 * 64 + 4 * 8 + 4
    case Special => 0
  }

  lemma OctalAppends(s: Bytes, d: Byte)
    ensures Octal(s + [d]) == 8 * Octal(s) + (d as int - 48)
  {
    assert (s + [d])[..|s|] == s;
  }

  lemma {:induction false} OctalOfFive(a: Byte, b: Byte, c: Byte, d: Byte, e: Byte)
    ensures Octal([a, b, c, d, e]) == 4096 * (a as int - 48) + 512 * (b as int - 48) + 64 * (c as int - 48)
                                        + 8 * (d as int - 48) + (e as int - 48)
  {
    OctalAppends([], a);
    assert [] + [a] == [a];
    OctalAppends([a], b);
    assert [a] + [b] == [a, b];
    OctalAppends([a, b], c);
    assert [a, b] + [c] == [a, b, c];
    OctalAppends([a, b, c], d);
    assert [a, b, c] + [d] == [a, b, c, d];
    OctalAppends([a, b, c, d], e);
    assert [a, b, c, d] + [e] == [a, b, c, d, e];
  }

  lemma ModeBytes()
    ensures MODE_LINK == [49, 50, 48, 48, 48, 48] && MODE_TREE == [52, 48, 48, 48, 48]
    ensures MODE_EXEC == [49, 48, 48, 55, 53, 53] && MODE_FILE == [49, 48, 48, 54, 52, 52]
  {
  }

  lemma ModesAreOctal()
    ensures Octal(MODE_LINK) == 40960 && Octal(MODE_TREE) == 16384
    ensures Octal(MODE_EXEC) == 33261 && Octal(MODE_FILE) == 33188
  {
    ModeBytes();
    OctalOfFive(49, 50, 48, 48, 48);
    OctalAppends([49, 50, 48, 48, 48], 48);
    assert [49, 50, 48, 48, 48] + [48] == MODE_LINK;
    OctalOfFive(52, 48, 48, 48, 48);
    OctalOfFive(49, 48, 48, 55, 53);
    OctalAppends([49, 48, 48, 55, 53], 53);
    assert [49, 48, 48, 55, 53] + [53] == MODE_EXEC;
    OctalOfFive(49, 48, 48, 54, 52);
    OctalAppends([49, 48, 48, 54, 52], 52);
    assert [49, 48, 48, 54, 52] + [52] == MODE_FILE;
  }

  // One entry of a tree object: its mode in octal without a leading zero, its name, and what it refers to.
  ghost predicate EntryBytes(e: Entry, oid: Digest, bytes: Bytes) {
    exists mode: Bytes :: bytes == mode + [32] + e.name + [0] + oid
      && mode != [] && mode[0] != 48 && Octal(mode) == ModeNumber(e)
  }

  // What an entry refers to: the blob of its content, of its target, or the identity of its directory.
  ghost function Refers(tool: Tool, h: Hash, e: Entry, prefix: Bytes): Option<Digest> {
    match e.node
    case Link(target) => Some(ObjectId(h, BLOB, target))
    case Dir(entries) => Id(tool, h, entries, false, prefix + e.name + [47])
    case File(_, data) => Some(ObjectId(h, BLOB, Content(tool, prefix + e.name, data)))
    case Special => None
  }

  lemma PayloadIs(e: Entry, mode: Bytes, oid: Digest)
    requires mode != [] && mode[0] != 48 && Octal(mode) == ModeNumber(e)
    ensures EntryBytes(e, oid, Payload(mode, e.name, oid))
  {
    assert Payload(mode, e.name, oid) == mode + [32] + e.name + [0] + oid;
  }

  // The mode that goes into a record.
  function ModeOf(e: Entry): Bytes {
    match e.node
    case Link(_) => MODE_LINK
    case Dir(_) => MODE_TREE
    case File(perm, _) => if Executable(perm) then MODE_EXEC else MODE_FILE
    case Special => []
  }

  lemma ModeIs(e: Entry)
    requires !e.node.Special?
    ensures ModeOf(e) != [] && ModeOf(e)[0] != 48 && Octal(ModeOf(e)) == ModeNumber(e)
  {
    ModesAreOctal();
    ModeBytes();
    if e.node.File? { ExecutableIff(e.node.perm); }
  }

  lemma RecordIs(tool: Tool, h: Hash, e: Entry, prefix: Bytes)
    requires RecordOf(tool, h, e, prefix).Some?
    ensures RecordOf(tool, h, e, prefix).value.key == Key(e) && Refers(tool, h, e, prefix).Some?
    ensures EntryBytes(e, Refers(tool, h, e, prefix).value, RecordOf(tool, h, e, prefix).value.payload)
  {
    ModeIs(e);
    PayloadIs(e, ModeOf(e), Refers(tool, h, e, prefix).value);
  }

  // The entries behind some records, one by one.
  ghost predicate Behind(tool: Tool, h: Hash, es: seq<Entry>, rs: seq<Record>, prefix: Bytes) {
    |es| == |rs| && forall i :: 0 <= i < |es| ==> RecordOf(tool, h, es[i], prefix) == Some(rs[i])
  }

  lemma {:induction false} FindEntries(tool: Tool, h: Hash, entries: seq<Entry>, top: bool, prefix: Bytes,
      rs: seq<Record>)
    returns (es: seq<Entry>)
    requires Records(tool, h, entries, top, prefix).Some?
    requires forall i :: 0 <= i < |rs| ==> rs[i] in Records(tool, h, entries, top, prefix).value
    ensures Behind(tool, h, es, rs, prefix) && forall i :: 0 <= i < |es| ==> Kept(tool, entries, top, es[i])
  {
    if rs == [] {
      es := [];
    } else {
      var e := RecordsFrom(tool, h, entries, top, prefix, rs[0]);
      es := FindEntries(tool, h, entries, top, prefix, rs[1..]);
      var all := [e] + es;
      forall i | 0 <= i < |all| ensures RecordOf(tool, h, all[i], prefix) == Some(rs[i])
          && Kept(tool, entries, top, all[i]) {
        if i > 0 { assert all[i] == es[i - 1] && rs[i] == rs[1..][i - 1]; }
      }
      es := all;
    }
  }

  // The bytes of a tree object with these entries, in this order.
  ghost predicate TreeBytes(tool: Tool, h: Hash, es: seq<Entry>, prefix: Bytes, bytes: Bytes)
    decreases |es|
  {
    if es == [] then bytes == []
    else
      exists first: Bytes, rest: Bytes ::
        bytes == first + rest && TreeBytes(tool, h, es[1..], prefix, rest)
        && Refers(tool, h, es[0], prefix).Some? && EntryBytes(es[0], Refers(tool, h, es[0], prefix).value, first)
  }

  lemma {:induction false} JoinIsTree(tool: Tool, h: Hash, es: seq<Entry>, rs: seq<Record>, prefix: Bytes)
    requires Behind(tool, h, es, rs, prefix)
    ensures TreeBytes(tool, h, es, prefix, Join(rs))
    decreases |es|
  {
    if es != [] {
      RecordIs(tool, h, es[0], prefix);
      forall i | 0 <= i < |es[1..]| ensures RecordOf(tool, h, es[1..][i], prefix) == Some(rs[1..][i]) {
        assert es[1..][i] == es[i + 1] && rs[1..][i] == rs[i + 1];
      }
      JoinIsTree(tool, h, es[1..], rs[1..], prefix);
      assert Join(rs) == rs[0].payload + Join(rs[1..]);
    }
  }

  // Each kept entry once, in the order of Git.
  ghost predicate InGitOrder(tool: Tool, entries: seq<Entry>, top: bool, es: seq<Entry>) {
    && (forall e :: e in es <==> Kept(tool, entries, top, e))
    && (forall i, j :: 0 <= i < j < |es| ==> GitBefore(es[i], es[j]))
  }

  lemma SortedInGitOrder(tool: Tool, h: Hash, es: seq<Entry>, rs: seq<Record>, prefix: Bytes, i: nat, j: nat)
    requires Behind(tool, h, es, rs, prefix) && Ordered(rs) && i < j < |es|
    requires es[i] == es[j] || rs[i].key != rs[j].key
    ensures GitBefore(es[i], es[j])
  {
    RecordIs(tool, h, es[i], prefix);
    RecordIs(tool, h, es[j], prefix);
    assert Before(rs[i], rs[j]);
    BeforeOrder(rs[i], rs[j], rs[i]);
    KeysInGitOrder(es[i], es[j]);
  }

  /** What is hashed for a directory: a Git tree object, that is for each entry outside what is skipped its mode,
      name and object, in the order of Git, and nothing else. */
  lemma TreeContent(tool: Tool, h: Hash, entries: seq<Entry>, top: bool, prefix: Bytes)
      returns (es: seq<Entry>, bytes: Bytes)
    requires Valid(entries) && Id(tool, h, entries, top, prefix).Some?
    ensures InGitOrder(tool, entries, top, es) && TreeBytes(tool, h, es, prefix, bytes)
    ensures Id(tool, h, entries, top, prefix) == Some(ObjectId(h, TREE, bytes))
  {
    var records := Records(tool, h, entries, top, prefix).value;
    var rs := Sort(records);
    SortMembers(records);
    RecordsDistinct(tool, h, entries, top, prefix);
    SortOrdered(records);
    es := FindEntries(tool, h, entries, top, prefix, rs);
    bytes := Join(rs);
    JoinIsTree(tool, h, es, rs, prefix);
    forall e | Kept(tool, entries, top, e) ensures e in es {
      RecordsHave(tool, h, entries, top, prefix, e);
      var i :| 0 <= i < |rs| && rs[i] == RecordOf(tool, h, e, prefix).value;
      SameRecordSameEntry(tool, h, entries, top, prefix, e, es[i]);
    }
    forall i, j | 0 <= i < j < |es| ensures GitBefore(es[i], es[j]) {
      if es[i] != es[j] { OtherEntryOtherKey(tool, h, entries, prefix, es[i], es[j]); }
      SortedInGitOrder(tool, h, es, rs, prefix, i, j);
    }
  }

  lemma OtherEntryOtherKey(tool: Tool, h: Hash, entries: seq<Entry>, prefix: Bytes, e: Entry, f: Entry)
    requires Valid(entries) && e in entries && f in entries && e != f
    requires RecordOf(tool, h, e, prefix).Some? && RecordOf(tool, h, f, prefix).Some?
    ensures RecordOf(tool, h, e, prefix).value.key != RecordOf(tool, h, f, prefix).value.key
  {
    ValidEntry(entries, e);
    ValidEntry(entries, f);
    if e.name == f.name { SameNameSameEntry(entries, e, f); }
    KeysDiffer(tool, h, e, f, prefix);
  }

  lemma SameRecordSameEntry(tool: Tool, h: Hash, entries: seq<Entry>, top: bool, prefix: Bytes, e: Entry, f: Entry)
    requires Valid(entries) && Kept(tool, entries, top, e) && Kept(tool, entries, top, f)
    requires RecordOf(tool, h, e, prefix).Some? && RecordOf(tool, h, e, prefix) == RecordOf(tool, h, f, prefix)
    ensures e == f
  {
    if e != f { OtherEntryOtherKey(tool, h, entries, prefix, e, f); }
  }

  // ---------- Sizes, line ends and hexadecimal ----------

  // The number that decimal digits stand for.
  function DecimalValue(s: Bytes): int {
    if s == [] then 0 else 10 * DecimalValue(s[..|s| - 1]) + (s[|s| - 1] as int - 48)
  }

  lemma ValueAppends(s: Bytes, d: Byte)
    ensures DecimalValue(s + [d]) == 10 * DecimalValue(s) + (d as int - 48)
  {
    assert (s + [d])[..|s|] == s;
  }

  /** The size in front of an object is decimal, without leading zeros. */
  lemma {:induction false} DigitsAreDecimal(n: nat)
    ensures Digits(n) != [] && (forall i :: 0 <= i < |Digits(n)| ==> 48 <= Digits(n)[i] <= 57)
    ensures DecimalValue(Digits(n)) == n && (n > 0 ==> Digits(n)[0] != 48)
  {
    ValueAppends(if n < 10 then [] else Digits(n / 10), 48 + n % 10);
    if n >= 10 { DigitsAreDecimal(n / 10); }
  }

  /** The hashed bytes of an object: "blob" or "tree", a blank, the size, a zero byte and the content. */
  lemma ObjectBytes(data: Bytes)
    ensures Framed(BLOB, data) == [98, 108, 111, 98, 32] + Digits(|data|) + [0] + data
    ensures Framed(TREE, data) == [116, 114, 101, 101, 32] + Digits(|data|) + [0] + data
    ensures GIT == [46, 103, 105, 116]
  {
    assert BLOB == [98, 108, 111, 98] && TREE == [116, 114, 101, 101];
    assert [98, 108, 111, 98] + [32] == [98, 108, 111, 98, 32];
    assert [116, 114, 101, 101] + [32] == [116, 114, 101, 101, 32];
  }

  /** Line ends: behind a stretch without CR LF, each CR LF becomes one LF, and nothing else changes. */
  lemma {:induction false} ToLfReplaces(p: Bytes, q: Bytes)
    requires !HasCrlf(p)
    ensures ToLf(p) == p && ToLf(p + [13, 10] + q) == p + [10] + ToLf(q)
    decreases |p|
  {
    ToLfShrinks(p);
    var data := p + [13, 10] + q;
    if p == [] {
      assert data[2..] == q;
    } else {
      HasCrlfTail(p);
      ToLfReplaces(p[1..], q);
      assert data[1..] == p[1..] + [13, 10] + q;
    }
  }

  // The hexadecimal digit of n.
  function HexCharOf(n: nat): char
    requires n < 16
  {
    if n < 10 then ('0' as int + n) as char else ('a' as int + n - 10) as char
  }

  lemma OneHexChar(n: nat)
    requires n < 16
    ensures HEX[n] == HexCharOf(n)
  {
  }

  /** bytes.hex() writes each byte as two lower-case digits, the high one first. */
  lemma {:induction false} HexIs(d: Bytes, i: nat)
    requires i < |d|
    ensures |ToHex(d)| == 2 * |d|
    ensures ToHex(d)[2 * i] == HexCharOf(d[i] / 16) && ToHex(d)[2 * i + 1] == HexCharOf(d[i] % 16)
    decreases |d|
  {
    OneHexChar(d[0] / 16);
    OneHexChar(d[0] % 16);
    if |d| > 1 { HexIs(d[1..], if i > 0 then i - 1 else 0); } else { assert d[1..] == []; }
  }

  // ---------- The loops ----------

  // What the loop over a directory has collected when it comes to entry i.
  ghost predicate Collected(tool: Tool, h: Hash, root: seq<Entry>, top: bool, prefix: Bytes, i: nat,
      entries: seq<Record>) {
    i <= |root| &&
    match Records(tool, h, root[i..], top, prefix)
    case None => Records(tool, h, root, top, prefix).None?
    case Some(rest) => Records(tool, h, root, top, prefix) == Some(entries + rest)
  }

  lemma CollectStart(tool: Tool, h: Hash, root: seq<Entry>, top: bool, prefix: Bytes)
    ensures Collected(tool, h, root, top, prefix, 0, [])
  {
    assert root[0..] == root;
    match Records(tool, h, root, top, prefix) {
      case None =>
      case Some(rest) => assert [] + rest == rest;
    }
  }

  lemma CollectEnd(tool: Tool, h: Hash, root: seq<Entry>, top: bool, prefix: Bytes, entries: seq<Record>)
    requires Collected(tool, h, root, top, prefix, |root|, entries)
    ensures Id(tool, h, root, top, prefix) == Some(ObjectId(h, TREE, Join(Sort(entries))))
  {
    assert root[|root|..] == [] && entries + [] == entries;
  }

  lemma CollectStep(tool: Tool, h: Hash, root: seq<Entry>, top: bool, prefix: Bytes, i: nat, entries: seq<Record>)
    requires Collected(tool, h, root, top, prefix, i, entries) && i < |root|
    ensures Skipped(tool, top, root[i].name) ==> Collected(tool, h, root, top, prefix, i + 1, entries)
    ensures !Skipped(tool, top, root[i].name) ==>
              match RecordOf(tool, h, root[i], prefix)
              case None => Id(tool, h, root, top, prefix).None?
              case Some(r) => Collected(tool, h, root, top, prefix, i + 1, entries + [r])
  {
    assert root[i..][0] == root[i] && root[i..][1..] == root[i + 1..];
    if !Skipped(tool, top, root[i].name) && RecordOf(tool, h, root[i], prefix).Some? {
      var r := RecordOf(tool, h, root[i], prefix).value;
      match Records(tool, h, root[i + 1..], top, prefix) {
        case None =>
        case Some(rest) => assert entries + ([r] + rest) == entries + [r] + rest;
      }
    }
  }

  /** tree_id of verify_curl_source.py. */
  method CurlTreeId(h: Hash, root: seq<Entry>, top: bool, prefix: Bytes) returns (r: Option<Digest>)
    ensures r == Id(Curl, h, root, top, prefix)
    decreases root
  {
    var entries: seq<Record> := [];
    var i := 0;
    CollectStart(Curl, h, root, top, prefix);
    while i < |root|
      invariant Collected(Curl, h, root, top, prefix, i, entries)
    {
      CollectStep(Curl, h, root, top, prefix, i, entries);
      var path := root[i];
      var name := path.name;
      if !(top && name == GIT) {
        var kind, oid, key := [], h([]), name;
        match path.node {
          case Link(target) =>
            kind, oid := MODE_LINK, ObjectId(h, BLOB, target);
          case Dir(inner) =>
            var nested := CurlTreeId(h, inner, false, prefix + name + [SLASH]);
            if nested.None? { return None; }
            kind, oid, key := MODE_TREE, nested.value, name + [SLASH];
          case File(perm, bytes) =>
            kind := if Executable(perm) then MODE_EXEC else MODE_FILE;
            var data := bytes;
            if prefix + name in CRLF_PATHS {
              data := ToLf(data);
            }
            oid := ObjectId(h, BLOB, data);
          case Special =>
            return None;
        }
        entries := entries + [Record(key, Payload(kind, name, oid))];
      }
      i := i + 1;
    }
    CollectEnd(Curl, h, root, top, prefix, entries);
    return Some(ObjectId(h, TREE, Join(Sort(entries))));
  }

  /** tree_id of libffi_source.py: identities travel in hexadecimal. */
  method LibffiTreeId(h: Hash, root: seq<Entry>, ghost top: bool, ghost prefix: Bytes) returns (r: Option<string>)
    ensures r == match Id(Libffi, h, root, top, prefix) case None => None case Some(d) => Some(ToHex(d))
    decreases root, 0
  {
    var entries: seq<Record> := [];
    var i := 0;
    CollectStart(Libffi, h, root, top, prefix);
    while i < |root|
      invariant Collected(Libffi, h, root, top, prefix, i, entries)
    {
      CollectStep(Libffi, h, root, top, prefix, i, entries);
      if root[i].name != GIT {
        var entry := LibffiEntry(h, root, i, prefix);
        if entry.None? { return None; }
        entries := entries + [entry.value];
      }
      i := i + 1;
    }
    CollectEnd(Libffi, h, root, top, prefix, entries);
    return Some(ToHex(ObjectId(h, TREE, Join(Sort(entries)))));
  }

  // The body of the loop.
  method LibffiEntry(h: Hash, root: seq<Entry>, i: nat, ghost prefix: Bytes) returns (r: Option<Record>)
    requires i < |root|
    ensures r == RecordOf(Libffi, h, root[i], prefix)
    decreases root[i], 1
  {
    var p := root[i];
    var name := p.name;
    match p.node {
      case Link(target) =>
        return Some(Record(name, Payload(MODE_LINK, name, ObjectId(h, BLOB, target))));
      case Dir(inner) =>
        var nested := LibffiTreeId(h, inner, false, prefix + name + [SLASH]);
        if nested.None? { return None; }
        HexRoundTrip(Id(Libffi, h, inner, false, prefix + name + [SLASH]).value);
        return Some(Record(name + [SLASH], Payload(MODE_TREE, name, FromHex(nested.value).value)));
      case File(perm, bytes) =>
        var mode := if Executable(perm) then MODE_EXEC else MODE_FILE;
        return Some(Record(name, Payload(mode, name, ObjectId(h, BLOB, bytes))));
      case Special =>
        return None;
    }
  }
}
