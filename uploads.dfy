/**
 * What the three upload pages share: the 4.5 MB admission ceiling, the
 * per-file status, the tracked-entry record, batch ids, appending new
 * entries, name- and id-keyed updates and removal by id.
 */
module Uploads {
  import opened Wrappers
  import opened JsStrings

  /** The admission ceiling, `4.5 * 1024 * 1024` bytes. */
  const MaxUploadBytes: nat := 4718592

  /** A browser `File` as the pages see it: name, size in bytes and MIME type. */
  datatype FileInfo = FileInfo(name: string, size: nat, mime: string)

  /** A file is admitted when its size does not exceed the ceiling. */
  predicate Admissible(f: FileInfo) {
    f.size <= MaxUploadBytes
  }

  /**
   * `xs.find(x => nameOf(x) === name)`, as the index of the first match:
   * the element there has the name and none before it has.
   */
  function FindFirst<T>(xs: seq<T>, nameOf: T -> string, name: string): (r: Option<nat>)
    ensures r.Some? ==> r.value < |xs| && nameOf(xs[r.value]) == name
    ensures r.Some? ==> forall j :: 0 <= j < r.value ==> nameOf(xs[j]) != name
    ensures r.None? ==> forall j :: 0 <= j < |xs| ==> nameOf(xs[j]) != name
  {
    if xs == [] then None
    else if nameOf(xs[0]) == name then Some(0)
    else match FindFirst(xs[1..], nameOf, name)
      case None => None
      case Some(i) => Some(i + 1)
  }

  /** `files.filter(file => !(file.size > maxSize))`: the admitted files, in order. */
  function Admit(files: seq<FileInfo>): (r: seq<FileInfo>)
    ensures |r| <= |files|
    ensures forall f :: f in r <==> f in files && Admissible(f)
  {
    if files == [] then []
    else (if Admissible(files[0]) then [files[0]] else []) + Admit(files[1..])
  }

  /** The names of the rejected files, each of which gets its own "too large" diagnostic. */
  function RejectedNames(files: seq<FileInfo>): (r: seq<string>)
    ensures |r| <= |files|
    ensures forall f :: f in files && !Admissible(f) ==> f.name in r
  {
    if files == [] then []
    else (if Admissible(files[0]) then [] else [files[0].name]) + RejectedNames(files[1..])
  }

  /** The names of the files, in order. */
  function Names(files: seq<FileInfo>): (r: seq<string>)
    ensures |r| == |files| && forall k :: 0 <= k < |files| ==> r[k] == files[k].name
  {
    seq(|files|, k requires 0 <= k < |files| => files[k].name)
  }

  /** Admission keeps the order of the files: it distributes over concatenation. */
  lemma {:induction false} AdmitAppend(a: seq<FileInfo>, b: seq<FileInfo>)
    ensures Admit(a + b) == Admit(a) + Admit(b)
    decreases |a|
  {
    if a != [] {
      assert (a + b)[0] == a[0];
      assert (a + b)[1..] == a[1..] + b;
      AdmitAppend(a[1..], b);
    } else {
      assert a + b == b;
    }
  }

  /** Every file is either admitted or reported, never both and never neither. */
  lemma {:induction false} AdmitPartition(files: seq<FileInfo>)
    ensures |Admit(files)| + |RejectedNames(files)| == |files|
    ensures Admit(files) == files <==> RejectedNames(files) == []
    decreases |files|
  {
    if files != [] {
      AdmitPartition(files[1..]);
      if Admit(files) == files {
        assert |Admit(files[1..])| == |files| - 1;
      }
    }
  }

  /** Admitting twice admits the same files. */
  lemma {:induction false} AdmitIdempotent(files: seq<FileInfo>)
    ensures Admit(Admit(files)) == Admit(files)
    decreases |files|
  {
    if files != [] {
      AdmitIdempotent(files[1..]);
      var head := if Admissible(files[0]) then [files[0]] else [];
      AdmitAppend(head, Admit(files[1..]));
    }
  }

  // ---------------------------------------------------------------------------
  // Tracked entries

  /** The states of a tracked file; `Error` is the source's "error". */
  datatype Status = Uploading | Processing | Completed | Error

  /** A tracked file; `detail` holds what each page adds (parsed data, result, message). */
  datatype Entry<D> = Entry(id: string, name: string, size: nat, mime: string, status: Status, progress: nat, detail: D)

  /** The id `file-<stamp>-<index>` of the index-th file of a batch, built at time `stamp`. */
  function BatchId(stamp: nat, index: nat): string {
    "file-" + NatToString(stamp) + "-" + NatToString(index)
  }

  /** Two batch ids are equal only when both the time stamp and the index are. */
  lemma BatchIdInjective(s1: nat, i1: nat, s2: nat, i2: nat)
    requires BatchId(s1, i1) == BatchId(s2, i2)
    ensures s1 == s2 && i1 == i2
  {
    var a, b := NatToString(s1), NatToString(s2);
    var x, y := BatchId(s1, i1), BatchId(s2, i2);
    assert x[5 + |a|] == '-' && y[5 + |b|] == '-';
    assert forall k :: 5 <= k < 5 + |a| ==> IsDigit(x[k]);
    assert forall k :: 5 <= k < 5 + |b| ==> IsDigit(y[k]);
    assert a == x[5..5 + |a|] == y[5..5 + |b|] == b;
    NatToStringInjective(s1, s2);
    assert NatToString(i1) == x[6 + |a|..] == y[6 + |b|..] == NatToString(i2);
    NatToStringInjective(i1, i2);
  }

  /**
   * `validFiles.map(...)`: one new entry per admitted file, in order, uploading
   * at 0%. `Date.now()` is read anew for every entry; `clock(k)` is the value
   * it gives while the k-th entry is built.
   */
  function NewEntries<D>(files: seq<FileInfo>, clock: nat -> nat, detail: D): (r: seq<Entry<D>>)
    ensures |r| == |files|
    ensures forall k :: 0 <= k < |r| ==>
      && r[k].id == BatchId(clock(k), k)
      && r[k].name == files[k].name && r[k].size == files[k].size && r[k].mime == files[k].mime
      && r[k].status == Uploading && r[k].progress == 0 && r[k].detail == detail
  {
    seq(|files|, k requires 0 <= k < |files| =>
      Entry(BatchId(clock(k), k), files[k].name, files[k].size, files[k].mime, Uploading, 0, detail))
  }

  /** The entries of one batch have pairwise distinct ids, however the clock moves meanwhile. */
  lemma NewEntryIdsDistinct<D>(files: seq<FileInfo>, clock: nat -> nat, detail: D, j: nat, k: nat)
    requires j < k < |files|
    ensures NewEntries(files, clock, detail)[j].id != NewEntries(files, clock, detail)[k].id
  {
    if BatchId(clock(j), j) == BatchId(clock(k), k) {
      BatchIdInjective(clock(j), j, clock(k), k);
    }
  }

  /** `prev.map(f => p(f) ? g(f) : f)`: the entries that satisfy `p` rewritten by `g`, the rest kept. */
  function UpdateWhere<D>(entries: seq<Entry<D>>, p: Entry<D> -> bool, g: Entry<D> -> Entry<D>): (r: seq<Entry<D>>)
    ensures |r| == |entries|
    ensures forall k :: 0 <= k < |r| ==> r[k] == if p(entries[k]) then g(entries[k]) else entries[k]
  {
    seq(|entries|, k requires 0 <= k < |entries| => if p(entries[k]) then g(entries[k]) else entries[k])
  }

  /** `prev.filter(f => f.id !== id)`. */
  function RemoveById<D>(entries: seq<Entry<D>>, id: string): (r: seq<Entry<D>>)
    ensures |r| <= |entries|
    ensures forall k :: 0 <= k < |r| ==> r[k] in entries && r[k].id != id
    ensures forall k :: 0 <= k < |entries| && entries[k].id != id ==> entries[k] in r
  {
    if entries == [] then []
    else (if entries[0].id == id then [] else [entries[0]]) + RemoveById(entries[1..], id)
  }

  /** Removal keeps the order of what remains: it distributes over concatenation. */
  lemma {:induction false} RemoveByIdAppend<D>(a: seq<Entry<D>>, b: seq<Entry<D>>, id: string)
    ensures RemoveById(a + b, id) == RemoveById(a, id) + RemoveById(b, id)
    decreases |a|
  {
    if a != [] {
      assert (a + b)[0] == a[0];
      assert (a + b)[1..] == a[1..] + b;
      RemoveByIdAppend(a[1..], b, id);
    } else {
      assert a + b == b;
    }
  }

  /** Removing an id that no entry has changes nothing. */
  lemma {:induction false} RemoveAbsentId<D>(entries: seq<Entry<D>>, id: string)
    requires forall k :: 0 <= k < |entries| ==> entries[k].id != id
    ensures RemoveById(entries, id) == entries
    decreases |entries|
  {
    if entries != [] {
      RemoveAbsentId(entries[1..], id);
    }
  }

  /** Removing the same id twice is removing it once. */
  lemma RemoveByIdIdempotent<D>(entries: seq<Entry<D>>, id: string)
    ensures RemoveById(RemoveById(entries, id), id) == RemoveById(entries, id)
  {
    RemoveAbsentId(RemoveById(entries, id), id);
  }
}
