/** Name rules of the data browser: which directory entries are subjects or
    sessions, and which names are flagged hidden.  The directory listings
    themselves are inputs. */
module DataFiles {
  import opened Wrappers

  /** One entry of a directory listing: its last path component and its kind. */
  datatype Entry = Entry(name: string, isDir: bool)

  /** One item of the `data_files` answer. */
  datatype FileItem = FileItem(name: string, id: string, isDir: bool, isHidden: bool)

  datatype Listing = Names(names: seq<string>) | Error(message: string)

  const SubjectPrefix: string := "sub_"
  const SessionPrefix: string := "sess_"

  predicate IsAsciiLetter(c: char) {
    'a' <= c <= 'z' || 'A' <= c <= 'Z'
  }

  /** The hidden-name rule: a name is hidden unless its first character is an
      ASCII letter (so `_x`, `.x` and `1x` are all hidden). */
  predicate IsHidden(name: string)
    requires |name| > 0
  {
    !IsAsciiLetter(name[0])
  }

  predicate StartsWith(s: string, prefix: string) {
    |prefix| <= |s| && s[..|prefix|] == prefix
  }

  /** Python `s[:n] == lit`, where the slice is cut short on a short `s`. */
  predicate SliceEquals(s: string, n: nat, lit: string) {
    s[..if n <= |s| then n else |s|] == lit
  }

  /** Comparing a slice as long as the literal is a prefix test. */
  lemma SliceEqualsIsPrefix(s: string, lit: string)
    ensures SliceEquals(s, |lit|, lit) <==> StartsWith(s, lit)
  {
  }

  /** `[i for i in names if i[:len(prefix)] == prefix]`: the names that start
      with `prefix`, each as often as it is listed, in listing order. */
  function WithPrefix(names: seq<string>, prefix: string): (r: seq<string>)
    ensures |r| <= |names|
    ensures forall x :: x in r <==> x in names && StartsWith(x, prefix)
  {
    if names == [] then []
    else
      var rest := WithPrefix(names[1..], prefix);
      assert forall x :: x in names <==> x == names[0] || x in names[1..];
      SliceEqualsIsPrefix(names[0], prefix);
      if SliceEquals(names[0], |prefix|, prefix) then [names[0]] + rest else rest
  }

  /** A single name is kept exactly when it starts with the prefix. */
  lemma WithPrefixOne(x: string, prefix: string)
    ensures WithPrefix([x], prefix) == if StartsWith(x, prefix) then [x] else []
  {
    assert [x][1..] == [];
    SliceEqualsIsPrefix(x, prefix);
  }

  /** The filter keeps every name that starts with the prefix as often as it
      is listed, and no other name. */
  lemma {:induction false} WithPrefixCounts(names: seq<string>, prefix: string)
    ensures forall x :: multiset(WithPrefix(names, prefix))[x] == if StartsWith(x, prefix) then multiset(names)[x] else 0
  {
    if names != [] {
      SliceEqualsIsPrefix(names[0], prefix);
      WithPrefixCounts(names[1..], prefix);
      assert names == [names[0]] + names[1..];
    }
  }

  /** The filter keeps listing order: filtering a listing is filtering its
      pieces and putting the results together (with `WithPrefixOne` on a
      single name, this determines the answer). */
  lemma {:induction false} WithPrefixAppend(a: seq<string>, b: seq<string>, prefix: string)
    ensures WithPrefix(a + b, prefix) == WithPrefix(a, prefix) + WithPrefix(b, prefix)
  {
    if a == [] {
      assert a + b == b;
    } else {
      assert (a + b)[0] == a[0] && (a + b)[1..] == a[1..] + b;
      WithPrefixAppend(a[1..], b, prefix);
    }
  }

  /** The names of the entries that are directories, each as often as such an
      entry is listed, in listing order. */
  function DirNames(entries: seq<Entry>): (r: seq<string>)
    ensures |r| <= |entries|
    ensures forall x :: x in r <==> exists e :: e in entries && e.isDir && e.name == x
  {
    if entries == [] then []
    else
      var rest := DirNames(entries[1..]);
      assert forall e :: e in entries <==> e == entries[0] || e in entries[1..];
      if entries[0].isDir then [entries[0].name] + rest else rest
  }

  /** Each directory entry gives its name once, and files give nothing. */
  lemma {:induction false} DirNamesCounts(entries: seq<Entry>)
    ensures forall x :: multiset(DirNames(entries))[x] == multiset(entries)[Entry(x, true)]
  {
    if entries != [] {
      DirNamesCounts(entries[1..]);
      assert entries == [entries[0]] + entries[1..];
    }
  }

  /** A single entry gives its name when it is a directory and nothing otherwise. */
  lemma DirNamesOne(e: Entry)
    ensures DirNames([e]) == if e.isDir then [e.name] else []
  {
    assert [e][1..] == [];
  }

  /** Directory names come out in listing order: the names of a listing are
      the names of its pieces put together. */
  lemma {:induction false} DirNamesAppend(a: seq<Entry>, b: seq<Entry>)
    ensures DirNames(a + b) == DirNames(a) + DirNames(b)
  {
    if a == [] {
      assert a + b == b;
    } else {
      var ab := a + b;
      assert ab[0] == a[0] && ab[1..] == a[1..] + b;
      assert DirNames(ab) == (if a[0].isDir then [a[0].name] else []) + DirNames(ab[1..]);
      assert DirNames(a) == (if a[0].isDir then [a[0].name] else []) + DirNames(a[1..]);
      DirNamesAppend(a[1..], b);
    }
  }

  /** `data_tree`: the sub-directories of the data root whose name starts with
      `sub_`, each once per listing entry, in listing order. */
  function SubjectDirs(entries: seq<Entry>): (r: seq<string>)
    ensures forall x :: multiset(r)[x] == if StartsWith(x, SubjectPrefix) then multiset(entries)[Entry(x, true)] else 0
    ensures forall x :: x in r <==> StartsWith(x, SubjectPrefix) && exists e :: e in entries && e.isDir && e.name == x
  {
    WithPrefixCounts(DirNames(entries), SubjectPrefix);
    DirNamesCounts(entries);
    WithPrefix(DirNames(entries), SubjectPrefix)
  }

  /** `data_sessions`: without a subject an error; otherwise the sub-directories
      of that subject whose name starts with `sess_`, each once per listing
      entry, in listing order. */
  function SessionDirs(subject: Option<string>, entries: seq<Entry>): (r: Listing)
    ensures subject.None? <==> r.Error?
    ensures r.Names? ==> forall x :: multiset(r.names)[x] == if StartsWith(x, SessionPrefix) then multiset(entries)[Entry(x, true)] else 0
    ensures r.Names? ==> forall x :: x in r.names <==> StartsWith(x, SessionPrefix) && exists e :: e in entries && e.isDir && e.name == x
  {
    if subject.None? then Error("NO SUBJECT SPECIFIED")
    else
      WithPrefixCounts(DirNames(entries), SessionPrefix);
      DirNamesCounts(entries);
      Names(WithPrefix(DirNames(entries), SessionPrefix))
  }

  /** Both listings keep the order of the directory listing: they go through it
      piece by piece. */
  lemma ListingsAppend(subject: string, a: seq<Entry>, b: seq<Entry>)
    ensures SubjectDirs(a + b) == SubjectDirs(a) + SubjectDirs(b)
    ensures SessionDirs(Some(subject), a + b).names == SessionDirs(Some(subject), a).names + SessionDirs(Some(subject), b).names
  {
    DirNamesAppend(a, b);
    WithPrefixAppend(DirNames(a), DirNames(b), SubjectPrefix);
    WithPrefixAppend(DirNames(a), DirNames(b), SessionPrefix);
  }

  /** `data_files`: one item per entry, with the entry's own name, its kind and
      the hidden-name rule applied. */
  function FileItems(entries: seq<Entry>): (r: seq<FileItem>)
    requires forall i :: 0 <= i < |entries| ==> |entries[i].name| > 0
    ensures |r| == |entries|
    ensures forall i :: 0 <= i < |r| ==>
      r[i].name == r[i].id == entries[i].name && r[i].isDir == entries[i].isDir &&
      (r[i].isHidden <==> !IsAsciiLetter(entries[i].name[0]))
  {
    seq(|entries|, i requires 0 <= i < |entries| =>
      FileItem(entries[i].name, entries[i].name, entries[i].isDir, IsHidden(entries[i].name)))
  }

  /** Every listed subject directory is shown as a visible item. */
  lemma SubjectDirsAreVisible(entries: seq<Entry>)
    ensures forall x :: x in SubjectDirs(entries) ==> |x| > 0 && !IsHidden(x)
  {
    forall x | x in SubjectDirs(entries)
      ensures |x| > 0 && !IsHidden(x)
    {
      assert x[..4] == SubjectPrefix;
      assert x[0] == 's';
    }
  }
}
