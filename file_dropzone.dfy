/** The attachment list of `src/components/file-dropzone.jsx`: merging dropped
    files with deduplication through a JavaScript `Map`, and removal by index.
    Both build a new list; the owner of the list stores it through `onChange`. */
module FileDropzone {
  import opened Results
  import opened Js

  /** A browser `File`: its name, byte size, last-modified time (milliseconds)
      and declared content type (`type`). */
  datatype File = File(name: string, size: nat, lastModified: int, mimeType: string)

  /** The Map key `${f.name}-${f.size}-${f.lastModified}`. */
  function FileKey(f: File): string {
    f.name + "-" + NatToString(f.size) + "-" + IntToString(f.lastModified)
  }

  // ----- The key identifies the triple -----

  /** The longest run of digits at the end of `s`. */
  function TrailingDigits(s: string): (r: string)
    ensures |r| <= |s| && AllDigits(r)
  {
    if s != [] && IsDigit(s[|s| - 1]) then TrailingDigits(s[..|s| - 1]) + [s[|s| - 1]] else []
  }

  /** Reads `name-size` back from the right. */
  function ParseNameAndSize(body: string): Option<(string, nat)> {
    var d := TrailingDigits(body);
    var head := body[..|body| - |d|];
    if d == [] || head == [] || head[|head| - 1] != '-' then None
    else Some((head[..|head| - 1], DigitsValue(d)))
  }

  /** Reads a key back from the right: the last-modified time (a run of digits,
      with a minus sign before it when negative), then the size, then the name. */
  function ParseKey(k: string): Option<(string, nat, int)> {
    var g := TrailingDigits(k);
    ParseBeforeTime(k[..|k| - |g|], g)
  }

  /** Given the text `rest` before the trailing digits `g` of a key, reads the
      sign of the time and then the name and size. */
  function ParseBeforeTime(rest: string, g: string): Option<(string, nat, int)>
    requires AllDigits(g)
  {
    if g == [] || rest == [] || rest[|rest| - 1] != '-' then None
    else
      var negative := |rest| >= 2 && rest[|rest| - 2] == '-';
      var magnitude: int := DigitsValue(g);
      match ParseNameAndSize(if negative then rest[..|rest| - 2] else rest[..|rest| - 1])
      case None => None
      case Some((name, size)) => Some((name, size, if negative then -magnitude else magnitude))
  }

  /** Digits after a non-digit are exactly the trailing digits. */
  lemma {:induction false} TrailingDigitsAfter(x: string, g: string)
    requires AllDigits(g)
    requires x == [] || !IsDigit(x[|x| - 1])
    ensures TrailingDigits(x + g) == g
  {
    var s := x + g;
    if g == [] {
      assert s == x;
    } else {
      var g' := g[..|g| - 1];
      assert s[|s| - 1] == g[|g| - 1];
      assert s[..|s| - 1] == x + g';
      TrailingDigitsAfter(x, g');
      assert TrailingDigits(s) == g' + [g[|g| - 1]];
      assert g == g' + [g[|g| - 1]];
    }
  }

  /** The key of a file reads back as its name, size and last-modified time. */
  lemma FileKeyRoundTrip(f: File)
    ensures ParseKey(FileKey(f)) == Some((f.name, f.size, f.lastModified))
  {
    var negative := f.lastModified < 0;
    var magnitude: nat := if negative then -f.lastModified else f.lastModified;
    var body := f.name + "-" + NatToString(f.size);
    var g := NatToString(magnitude);
    var rest := if negative then body + "--" else body + "-";
    assert FileKey(f) == rest + g;
    ParseKeyOf(rest, g);
    ParseBeforeTimeOf(body, negative, g);
    NameAndSizeRoundTrip(f.name, f.size);
    DigitsRoundTrip(magnitude);
  }

  /** Parsing a key splits off its last run of digits. */
  lemma ParseKeyOf(rest: string, g: string)
    requires rest != [] && !IsDigit(rest[|rest| - 1])
    requires AllDigits(g)
    ensures ParseKey(rest + g) == ParseBeforeTime(rest, g)
  {
    var k := rest + g;
    TrailingDigitsAfter(rest, g);
    assert k[..|k| - |g|] == rest;
  }

  /** Before the digits of the time comes "-" for a time of at least zero and
      "--" for a negative one. */
  lemma ParseBeforeTimeOf(body: string, negative: bool, g: string)
    requires body != [] && IsDigit(body[|body| - 1])
    requires g != [] && AllDigits(g)
    ensures var magnitude: int := DigitsValue(g);
      ParseBeforeTime(if negative then body + "--" else body + "-", g)
      == match ParseNameAndSize(body)
         case None => None
         case Some((name, size)) => Some((name, size, if negative then -magnitude else magnitude))
  {
    if negative {
      var rest := body + "--";
      assert rest[|rest| - 1] == '-' && rest[|rest| - 2] == '-';
      assert rest[..|rest| - 2] == body;
    } else {
      var rest := body + "-";
      assert rest[|rest| - 1] == '-' && rest[|rest| - 2] == body[|body| - 1];
      assert rest[..|rest| - 1] == body;
    }
  }

  lemma NameAndSizeRoundTrip(name: string, size: nat)
    ensures ParseNameAndSize(name + "-" + NatToString(size)) == Some((name, size))
  {
    var dd := NatToString(size);
    var body := name + "-" + dd;
    TrailingDigitsAfter(name + "-", dd);
    assert body[..|body| - |dd|] == name + "-";
    assert (name + "-")[..|name + "-"| - 1] == name;
    DigitsRoundTrip(size);
  }

  /** Two files have the same key exactly when they agree on name, size and
      last-modified time. */
  lemma FileKeyInjective(f1: File, f2: File)
    ensures FileKey(f1) == FileKey(f2) <==>
            f1.name == f2.name && f1.size == f2.size && f1.lastModified == f2.lastModified
  {
    FileKeyRoundTrip(f1);
    FileKeyRoundTrip(f2);
  }

  // ----- Map semantics -----

  /** A Map as its entries in insertion order. */
  type Entry = (string, File)

  function MapKeys(m: seq<Entry>): (ks: seq<string>)
    ensures |ks| == |m| && forall i :: 0 <= i < |m| ==> ks[i] == m[i].0
  {
    seq(|m|, i requires 0 <= i < |m| => m[i].0)
  }

  /** `map.set(k, v)`: an existing key keeps its place and takes the new value;
      a new key goes last. */
  function MapSet(m: seq<Entry>, k: string, v: File): seq<Entry> {
    if m == [] then [(k, v)]
    else if m[0].0 == k then [(k, v)] + m[1..]
    else [m[0]] + MapSet(m[1..], k, v)
  }

  /** `new Map(entries)`: the entries set one after another. */
  function MapFrom(es: seq<Entry>): seq<Entry> {
    if es == [] then [] else MapSet(MapFrom(es[..|es| - 1]), es[|es| - 1].0, es[|es| - 1].1)
  }

  function Values(m: seq<Entry>): (vs: seq<File>)
    ensures |vs| == |m| && forall i :: 0 <= i < |m| ==> vs[i] == m[i].1
  {
    seq(|m|, i requires 0 <= i < |m| => m[i].1)
  }

  function Keys(fs: seq<File>): (ks: seq<string>)
    ensures |ks| == |fs| && forall i :: 0 <= i < |fs| ==> ks[i] == FileKey(fs[i])
  {
    seq(|fs|, i requires 0 <= i < |fs| => FileKey(fs[i]))
  }

  /** `merged.map((f) => [key, f])` */
  function EntriesOf(fs: seq<File>): (es: seq<Entry>)
    ensures |es| == |fs| && forall i :: 0 <= i < |fs| ==> es[i] == (FileKey(fs[i]), fs[i])
  {
    seq(|fs|, i requires 0 <= i < |fs| => (FileKey(fs[i]), fs[i]))
  }

  /** `Array.from(new Map(merged.map(...)).values())` */
  function Dedup(fs: seq<File>): seq<File> {
    Values(MapFrom(EntriesOf(fs)))
  }

  /** `onDrop`: None when nothing was accepted (onChange is not called), else
      the deduplicated concatenation of the current and the dropped files. */
  function OnDrop(value: seq<File>, accepted: seq<File>): Option<seq<File>> {
    if |accepted| == 0 then None else Some(Dedup(value + accepted))
  }

  /** `value.filter((_, i) => i !== idx)` */
  function RemoveAt(value: seq<File>, idx: int): (r: seq<File>)
    ensures 0 <= idx < |value| ==> |r| == |value| - 1
    ensures !(0 <= idx < |value|) ==> r == value
    ensures forall i :: 0 <= i < |r| ==> r[i] == value[if 0 <= idx <= i then i + 1 else i]
  {
    if 0 <= idx < |value| then value[..idx] + value[idx + 1..] else value
  }

  // ----- The reference: distinct keys in first-occurrence order, last value wins -----

  predicate NoDup(ks: seq<string>) {
    forall i, j :: 0 <= i < j < |ks| ==> ks[i] != ks[j]
  }

  /** The distinct keys of `ks`, in the order they first occur. */
  function FirstOccurrences(ks: seq<string>): seq<string> {
    if ks == [] then []
    else if ks[|ks| - 1] in ks[..|ks| - 1] then FirstOccurrences(ks[..|ks| - 1])
    else FirstOccurrences(ks[..|ks| - 1]) + [ks[|ks| - 1]]
  }

  /** The last file in `fs` with key `k`. */
  function LastWithKey(fs: seq<File>, k: string): File
    requires k in Keys(fs)
  {
    var n := |fs| - 1;
    if FileKey(fs[n]) == k then fs[n]
    else
      KeyInPrefix(fs, k);
      LastWithKey(fs[..n], k)
  }

  /** A key of `fs` other than the last file's is a key of the files before it. */
  lemma KeyInPrefix(fs: seq<File>, k: string)
    requires k in Keys(fs) && FileKey(fs[|fs| - 1]) != k
    ensures k in Keys(fs[..|fs| - 1])
  {
    var n := |fs| - 1;
    var ks := Keys(fs);
    KeysPrefix(fs, n);
    var i :| 0 <= i < |ks| && ks[i] == k;
    assert i != n;
    assert ks[..n][i] == k;
  }

  /** The keys of a prefix are the prefix of the keys. */
  lemma KeysPrefix(fs: seq<File>, n: nat)
    requires n <= |fs|
    ensures Keys(fs[..n]) == Keys(fs)[..n]
  {
    var ps, ks := Keys(fs[..n]), Keys(fs);
    forall i | 0 <= i < n ensures ps[i] == ks[i] {
      assert fs[..n][i] == fs[i];
    }
  }

  /** The first occurrences hold each key once and hold exactly the keys of `ks`. */
  lemma {:induction false} FirstOccurrencesSpec(ks: seq<string>)
    ensures NoDup(FirstOccurrences(ks))
    ensures forall k :: k in FirstOccurrences(ks) <==> k in ks
  {
    if ks != [] {
      var p := ks[..|ks| - 1];
      FirstOccurrencesSpec(p);
      assert ks == p + [ks[|ks| - 1]];
    }
  }

  /** A sequence without repeats is as long as the set of its elements. */
  lemma {:induction false} NoDupCardinality(ks: seq<string>)
    requires NoDup(ks)
    ensures |set k | k in ks| == |ks|
  {
    if ks != [] {
      var p := ks[..|ks| - 1];
      NoDupCardinality(p);
      assert (set k | k in ks) == (set k | k in p) + {ks[|ks| - 1]};
      assert ks[|ks| - 1] !in (set k | k in p);
    }
  }

  /** A key already present changes nothing in the first occurrences. */
  lemma FirstOccurrencesOfRepeat(ks: seq<string>, k: string)
    requires k in ks
    ensures FirstOccurrences(ks + [k]) == FirstOccurrences(ks)
  {
    assert (ks + [k])[..|ks|] == ks;
  }

  /** Without repeats, the first occurrences are the whole sequence. */
  lemma {:induction false} FirstOccurrencesOfNoDup(ks: seq<string>)
    requires NoDup(ks)
    ensures FirstOccurrences(ks) == ks
  {
    if ks != [] {
      FirstOccurrencesOfNoDup(ks[..|ks| - 1]);
      assert ks == ks[..|ks| - 1] + [ks[|ks| - 1]];
    }
  }

  /** `m` is the Map built from `fs`: its keys are the distinct keys of `fs` in
      first-occurrence order, and each holds the last file with that key. */
  predicate Represents(m: seq<Entry>, fs: seq<File>) {
    && MapKeys(m) == FirstOccurrences(Keys(fs))
    && forall i :: 0 <= i < |m| ==> m[i].0 in Keys(fs) && m[i].1 == LastWithKey(fs, m[i].0)
  }

  /** `map.set` on a key not yet present appends; on a present key (keys
      being distinct) it replaces that entry's value and nothing else. */
  lemma {:induction false} MapSetSpec(m: seq<Entry>, k: string, v: File)
    ensures k !in MapKeys(m) ==> MapSet(m, k, v) == m + [(k, v)]
    ensures k in MapKeys(m) && NoDup(MapKeys(m)) ==>
      |MapSet(m, k, v)| == |m|
      && forall i :: 0 <= i < |m| ==> MapSet(m, k, v)[i] == (if m[i].0 == k then (k, v) else m[i])
  {
    if m != [] {
      MapSetSpec(m[1..], k, v);
      assert MapKeys(m) == [m[0].0] + MapKeys(m[1..]);
      if k in MapKeys(m) && NoDup(MapKeys(m)) {
        var ks := MapKeys(m);
        assert NoDup(MapKeys(m[1..])) by {
          forall i, j | 0 <= i < j < |m| - 1 ensures MapKeys(m[1..])[i] != MapKeys(m[1..])[j] {
            assert MapKeys(m[1..])[i] == ks[i + 1] && MapKeys(m[1..])[j] == ks[j + 1];
          }
        }
        if m[0].0 == k {
          forall i | 1 <= i < |m| ensures m[i].0 != k {
            assert ks[0] != ks[i];
          }
        }
      }
    }
  }

  /** The keys of a list with one more file. */
  lemma KeysSnoc(p: seq<File>, f: File)
    ensures Keys(p + [f]) == Keys(p) + [FileKey(f)]
  {
  }

  /** The last file with a key, once a file is appended. */
  lemma LastWithKeySnoc(p: seq<File>, f: File, k: string)
    requires k in Keys(p) || k == FileKey(f)
    ensures k in Keys(p + [f])
    ensures LastWithKey(p + [f], k) == if FileKey(f) == k then f else LastWithKey(p, k)
  {
    KeysSnoc(p, f);
    assert (p + [f])[..|p|] == p;
  }

  /** Appending a file with a new key appends an entry. */
  lemma RepresentsSnocNew(m: seq<Entry>, p: seq<File>, f: File)
    requires Represents(m, p) && FileKey(f) !in Keys(p)
    ensures Represents(m + [(FileKey(f), f)], p + [f])
  {
    var k := FileKey(f);
    var m2 := m + [(k, f)];
    KeysSnoc(p, f);
    assert (Keys(p) + [k])[..|p|] == Keys(p);
    assert FirstOccurrences(Keys(p + [f])) == FirstOccurrences(Keys(p)) + [k];
    assert MapKeys(m2) == MapKeys(m) + [k];
    forall i | 0 <= i < |m2| ensures m2[i].0 in Keys(p + [f]) && m2[i].1 == LastWithKey(p + [f], m2[i].0) {
      if i < |m| {
        LastWithKeySnoc(p, f, m[i].0);
      } else {
        LastWithKeySnoc(p, f, k);
      }
    }
  }

  /** Appending a file with a key already present replaces that entry's value. */
  lemma RepresentsSnocOld(m: seq<Entry>, p: seq<File>, f: File, m2: seq<Entry>)
    requires Represents(m, p) && FileKey(f) in Keys(p)
    requires |m2| == |m|
    requires forall i :: 0 <= i < |m| ==> m2[i] == (if m[i].0 == FileKey(f) then (FileKey(f), f) else m[i])
    ensures Represents(m2, p + [f])
  {
    var k := FileKey(f);
    KeysSnoc(p, f);
    FirstOccurrencesOfRepeat(Keys(p), k);
    assert MapKeys(m2) == MapKeys(m);
    forall i | 0 <= i < |m2| ensures m2[i].0 in Keys(p + [f]) && m2[i].1 == LastWithKey(p + [f], m2[i].0) {
      LastWithKeySnoc(p, f, m[i].0);
    }
  }

  /** Setting the entry of one more file keeps the map representing the files. */
  lemma RepresentsSnoc(m: seq<Entry>, p: seq<File>, f: File)
    requires Represents(m, p)
    ensures Represents(MapSet(m, FileKey(f), f), p + [f])
  {
    var k := FileKey(f);
    FirstOccurrencesSpec(Keys(p));
    MapSetSpec(m, k, f);
    if k in Keys(p) {
      RepresentsSnocOld(m, p, f, MapSet(m, k, f));
    } else {
      RepresentsSnocNew(m, p, f);
    }
  }

  /** Building the map from the entries of non-empty files sets the last
      file's entry on the map built from the files before it. */
  lemma MapFromSnoc(fs: seq<File>)
    requires fs != []
    ensures fs == fs[..|fs| - 1] + [fs[|fs| - 1]]
    ensures MapFrom(EntriesOf(fs))
         == MapSet(MapFrom(EntriesOf(fs[..|fs| - 1])), FileKey(fs[|fs| - 1]), fs[|fs| - 1])
  {
    var n := |fs| - 1;
    var ps, es := EntriesOf(fs[..n]), EntriesOf(fs);
    forall i | 0 <= i < n ensures ps[i] == es[i] {
      assert fs[..n][i] == fs[i];
    }
    assert es[..n] == ps;
  }

  /** `new Map(entries)` over the files' entries represents the files. */
  lemma {:induction false} MapFromRepresents(fs: seq<File>)
    ensures Represents(MapFrom(EntriesOf(fs)), fs)
  {
    if fs != [] {
      var n := |fs| - 1;
      MapFromRepresents(fs[..n]);
      MapFromSnoc(fs);
      RepresentsSnoc(MapFrom(EntriesOf(fs[..n])), fs[..n], fs[n]);
    }
  }

  // ----- What onDrop guarantees -----

  /** The deduplicated list holds one file per distinct key, in the order the
      keys first occur, and each is the last file seen with that key. */
  lemma DedupMapSemantics(fs: seq<File>)
    ensures var r := Dedup(fs);
      && Keys(r) == FirstOccurrences(Keys(fs))
      && forall i :: 0 <= i < |r| ==> FileKey(r[i]) in Keys(fs) && r[i] == LastWithKey(fs, FileKey(r[i]))
  {
    MapFromRepresents(fs);
    var m := MapFrom(EntriesOf(fs));
    forall i | 0 <= i < |m| ensures FileKey(m[i].1) == m[i].0 {
      var ks := Keys(fs);
      assert m[i].0 in ks;
      LastWithKeyHasKey(fs, m[i].0);
    }
  }

  lemma {:induction false} LastWithKeyHasKey(fs: seq<File>, k: string)
    requires k in Keys(fs)
    ensures FileKey(LastWithKey(fs, k)) == k
  {
    var n := |fs| - 1;
    if FileKey(fs[n]) != k {
      KeyInPrefix(fs, k);
      LastWithKeyHasKey(fs[..n], k);
    }
  }

  /** After a drop, no two files share a name, size and last-modified time;
      every key of the current or dropped files is present; and the list is
      as long as the number of distinct keys. */
  lemma OnDropDeduplicates(value: seq<File>, accepted: seq<File>)
    requires |accepted| > 0
    ensures var r := OnDrop(value, accepted).value;
      && (forall i, j :: 0 <= i < j < |r| ==>
            !(r[i].name == r[j].name && r[i].size == r[j].size && r[i].lastModified == r[j].lastModified))
      && (forall f :: f in value + accepted ==> FileKey(f) in Keys(r))
      && |r| == |set k | k in Keys(value + accepted)|
  {
    var all := value + accepted;
    DedupDistinct(all);
    DedupCovers(all);
    DedupLength(all);
  }

  /** The deduplicated files differ pairwise in name, size or time. */
  lemma DedupDistinct(fs: seq<File>)
    ensures var r := Dedup(fs);
      forall i, j :: 0 <= i < j < |r| ==>
        !(r[i].name == r[j].name && r[i].size == r[j].size && r[i].lastModified == r[j].lastModified)
  {
    var r := Dedup(fs);
    DedupMapSemantics(fs);
    FirstOccurrencesSpec(Keys(fs));
    forall i, j | 0 <= i < j < |r|
      ensures !(r[i].name == r[j].name && r[i].size == r[j].size && r[i].lastModified == r[j].lastModified)
    {
      FileKeyInjective(r[i], r[j]);
      assert Keys(r)[i] != Keys(r)[j];
    }
  }

  /** Every file's key survives deduplication. */
  lemma DedupCovers(fs: seq<File>)
    ensures forall f :: f in fs ==> FileKey(f) in Keys(Dedup(fs))
  {
    DedupMapSemantics(fs);
    FirstOccurrencesSpec(Keys(fs));
    forall f | f in fs ensures FileKey(f) in Keys(Dedup(fs)) {
      var i :| 0 <= i < |fs| && fs[i] == f;
      assert Keys(fs)[i] == FileKey(f);
    }
  }

  /** Deduplication leaves one file per distinct key. */
  lemma DedupLength(fs: seq<File>)
    ensures |Dedup(fs)| == |set k | k in Keys(fs)|
  {
    var r := Dedup(fs);
    DedupMapSemantics(fs);
    FirstOccurrencesSpec(Keys(fs));
    NoDupCardinality(Keys(r));
    assert (set k | k in Keys(r)) == (set k | k in Keys(fs));
  }

  /** An empty drop leaves the list alone: onChange is not called. */
  lemma EmptyDropIgnored(value: seq<File>, accepted: seq<File>)
    requires |accepted| == 0
    ensures OnDrop(value, accepted) == None
  {
  }

  /** Dropping a file whose key is already in a duplicate-free list keeps the
      list's length. */
  lemma DropExistingKeepsLength(value: seq<File>, f: File)
    requires NoDup(Keys(value)) && FileKey(f) in Keys(value)
    ensures |OnDrop(value, [f]).value| == |value|
  {
    DedupMapSemantics(value + [f]);
    assert Keys(value + [f]) == Keys(value) + [FileKey(f)];
    FirstOccurrencesOfRepeat(Keys(value), FileKey(f));
    FirstOccurrencesOfNoDup(Keys(value));
  }

  /** Removing at a valid index drops exactly that file and keeps the others
      in their order. */
  lemma RemoveAtKeepsOthers(value: seq<File>, idx: int)
    requires 0 <= idx < |value|
    ensures var r := RemoveAt(value, idx);
      && |r| == |value| - 1
      && r[..idx] == value[..idx]
      && r[idx..] == value[idx + 1..]
      && multiset(r) + multiset{value[idx]} == multiset(value)
  {
    assert value == value[..idx] + [value[idx]] + value[idx + 1..];
  }

  /** Removing a file keeps the keys of a duplicate-free list distinct, so
      the list stays duplicate-free between drops. */
  lemma RemoveAtKeepsNoDup(value: seq<File>, idx: int)
    requires NoDup(Keys(value))
    ensures NoDup(Keys(RemoveAt(value, idx)))
  {
    var r := RemoveAt(value, idx);
    var ks := Keys(value);
    forall i, j | 0 <= i < j < |r| ensures Keys(r)[i] != Keys(r)[j] {
      var i', j' := if 0 <= idx <= i then i + 1 else i, if 0 <= idx <= j then j + 1 else j;
      assert i' < j' < |value|;
      assert Keys(r)[i] == ks[i'] && Keys(r)[j] == ks[j'];
    }
  }
}
