/** ScanStaging in internal/binpack/binpack.go: the staged files in path order. */
module Scan {
  import opened Bytes
  import opened BinPack

  /** Go's string order. */
  predicate Before(a: string, b: string) {
    b != "" && (a == "" || a[0] < b[0] || (a[0] == b[0] && Before(a[1..], b[1..])))
  }

  lemma {:induction false} BeforeIsStrict(a: string, b: string)
    ensures Before(a, b) ==> !Before(b, a) && a != b
    ensures a == b || Before(a, b) || Before(b, a)
  {
    if a != "" && b != "" {
      BeforeIsStrict(a[1..], b[1..]);
      assert a == [a[0]] + a[1..] && b == [b[0]] + b[1..];
    }
  }

  lemma {:induction false} BeforeIsTransitive(a: string, b: string, c: string)
    requires Before(a, b) && Before(b, c)
    ensures Before(a, c)
  {
    if a != "" && a[0] == b[0] == c[0] {
      BeforeIsTransitive(a[1..], b[1..], c[1..]);
    }
  }

  /** Go's string order is that of a dictionary: by the first difference, and a proper prefix comes first. */
  lemma {:induction false} BeforeIsLexicographic(a: string, b: string)
    ensures Before(a, b) <==>
              || (|a| < |b| && b[..|a|] == a)
              || exists i :: 0 <= i < |a| && i < |b| && a[..i] == b[..i] && a[i] < b[i]
  {
    if a != "" && b != "" {
      BeforeIsLexicographic(a[1..], b[1..]);
      if a[0] == b[0] {
        if i :| 0 <= i < |a[1..]| && i < |b[1..]| && a[1..][..i] == b[1..][..i] && a[1..][i] < b[1..][i] {
          assert a[..i + 1] == [a[0]] + a[1..][..i] && b[..i + 1] == [b[0]] + b[1..][..i];
          assert a[i + 1] < b[i + 1];
        }
        if i :| 0 <= i < |a| && i < |b| && a[..i] == b[..i] && a[i] < b[i] {
          assert i > 0 && a[1..][..i - 1] == a[..i][1..] && b[1..][..i - 1] == b[..i][1..];
          assert a[1..][i - 1] < b[1..][i - 1];
        }
        if |a| < |b| {
          assert b[..|a|] == [b[0]] + b[1..][..|a| - 1] && a == [a[0]] + a[1..];
        }
      } else {
        forall i | 0 < i < |a| && i < |b|
          ensures a[..i] != b[..i]
        {
          assert a[..i][0] == a[0] && b[..i][0] == b[0];
        }
        if a[0] < b[0] {
          assert a[..0] == b[..0];
        }
      }
    }
  }

  ghost predicate Sorted(files: seq<FileInfo>) {
    forall i, j :: 0 <= i < j < |files| ==> Before(files[i].path, files[j].path)
  }

  ghost predicate Lists(files: seq<FileInfo>, path: string) {
    exists i :: 0 <= i < |files| && files[i].path == path
  }

  /** Every staged file once, with its size, in strictly ascending path order. */
  ghost predicate Listing(files: seq<FileInfo>, staging: map<string, Bytes>) {
    && Sorted(files)
    && (forall f <- files :: f.path in staging && f.size == |staging[f.path]|)
    && (forall path <- staging :: Lists(files, path))
  }

  lemma ListingHasNoRepeats(files: seq<FileInfo>, staging: map<string, Bytes>, i: nat, j: nat)
    requires Listing(files, staging) && i < j < |files|
    ensures files[i].path != files[j].path
  {
    BeforeIsStrict(files[i].path, files[j].path);
  }

  /** The smallest listed path comes first. */
  lemma FirstListed(a: seq<FileInfo>, b: seq<FileInfo>, staging: map<string, Bytes>)
    requires Listing(a, staging) && Listing(b, staging) && a != []
    ensures b != [] && a[0] == b[0]
  {
    assert a[0] in a && Lists(b, a[0].path);
    assert b[0] in b && Lists(a, b[0].path);
    var i :| 0 <= i < |b| && b[i].path == a[0].path;
    var j :| 0 <= j < |a| && a[j].path == b[0].path;
    BeforeIsStrict(a[0].path, b[0].path);
  }

  lemma ListingTail(files: seq<FileInfo>, staging: map<string, Bytes>)
    requires Listing(files, staging) && files != []
    ensures Listing(files[1..], staging - {files[0].path})
  {
    var rest, left := files[1..], staging - {files[0].path};
    forall f | f in rest
      ensures f.path in left && f.size == |left[f.path]|
    {
      var i :| 0 <= i < |rest| && rest[i] == f;
      ListingHasNoRepeats(files, staging, 0, i + 1);
      assert f in files;
    }
    forall path | path in left
      ensures Lists(rest, path)
    {
      assert Lists(files, path);
      var i :| 0 <= i < |files| && files[i].path == path;
      assert rest[i - 1].path == path;
    }
  }

  /** What is staged determines the listing, so planning does not depend on the walk's order. */
  lemma {:induction false} ListingIsUnique(a: seq<FileInfo>, b: seq<FileInfo>, staging: map<string, Bytes>)
    requires Listing(a, staging) && Listing(b, staging)
    ensures a == b
    decreases |a|
  {
    if a != [] {
      FirstListed(a, b, staging);
      ListingTail(a, staging);
      ListingTail(b, staging);
      ListingIsUnique(a[1..], b[1..], staging - {a[0].path});
    } else if b != [] {
      FirstListed(b, a, staging);
    }
  }

  /** Walks staging in any order, then sorts. */
  method ScanStaging(staging: map<string, Bytes>) returns (files: seq<FileInfo>)
    ensures Listing(files, staging)
  {
    files := [];
    var unseen := staging.Keys;
    while unseen != {}
      invariant unseen <= staging.Keys
      invariant forall f <- files :: f.path in staging && f.path !in unseen && f.size == |staging[f.path]|
      invariant forall path <- staging :: path in unseen || Lists(files, path)
      invariant forall i, j :: 0 <= i < j < |files| ==> files[i].path != files[j].path
      decreases |unseen|
    {
      var path :| path in unseen;
      ghost var before := files;
      files := files + [FileInfo(path, |staging[path]|)];
      unseen := unseen - {path};
      forall p | p in staging && p !in unseen
        ensures Lists(files, p)
      {
        if p == path {
          assert files[|before|].path == p;
        } else {
          var i :| 0 <= i < |before| && before[i].path == p;
          assert files[i].path == p;
        }
      }
    }
    ghost var walked := files;
    files := SortByPath(files);
    forall path | path in staging
      ensures Lists(files, path)
    {
      var i :| 0 <= i < |walked| && walked[i].path == path;
      assert walked[i] in files;
    }
  }

  /** sort.Slice by path, for paths that are all different. */
  method SortByPath(files: seq<FileInfo>) returns (sorted: seq<FileInfo>)
    requires forall i, j :: 0 <= i < j < |files| ==> files[i].path != files[j].path
    ensures Sorted(sorted) && multiset(sorted) == multiset(files)
    ensures forall f :: f in sorted <==> f in files
  {
    hide Before;
    hide Sorted;
    sorted := [];
    NothingToSort();
    for n := 0 to |files|
      invariant Sorted(sorted) && multiset(sorted) == multiset(files[..n])
    {
      var f := files[n];
      assert files[..n + 1] == files[..n] + [f];
      NewPath(files, n, sorted);
      var k := |sorted|;
      while k > 0 && Before(f.path, sorted[k - 1].path)
        invariant 0 <= k <= |sorted|
        invariant forall i :: k <= i < |sorted| ==> Before(f.path, sorted[i].path)
      {
        k := k - 1;
      }
      InsertSorted(sorted, k, f);
      OneMore(sorted, k, f);
      sorted := sorted[..k] + [f] + sorted[k..];
    }
    assert files[..|files|] == files;
    SameFiles(sorted, files);
  }

  lemma OneMore(sorted: seq<FileInfo>, k: nat, f: FileInfo)
    requires k <= |sorted|
    ensures multiset(sorted[..k] + [f] + sorted[k..]) == multiset(sorted) + multiset{f}
  {
    assert sorted == sorted[..k] + sorted[k..];
  }

  lemma SameFiles(a: seq<FileInfo>, b: seq<FileInfo>)
    requires multiset(a) == multiset(b)
    ensures forall f :: f in a <==> f in b
  {
    forall f
      ensures f in a <==> f in b
    {
      assert f in a <==> f in multiset(a);
      assert f in b <==> f in multiset(b);
    }
  }

  lemma NothingToSort()
    ensures Sorted([])
  {
  }

  lemma NewPath(files: seq<FileInfo>, n: nat, sorted: seq<FileInfo>)
    requires n < |files| && multiset(sorted) == multiset(files[..n])
    requires forall i, j :: 0 <= i < j < |files| ==> files[i].path != files[j].path
    ensures forall g <- sorted :: g.path != files[n].path
  {
    forall g | g in sorted
      ensures g.path != files[n].path
    {
      assert g in multiset(files[..n]);
      var i :| 0 <= i < n && files[..n][i] == g;
      assert files[i].path != files[n].path;
    }
  }

  lemma InsertSorted(files: seq<FileInfo>, k: nat, f: FileInfo)
    requires Sorted(files) && k <= |files|
    requires forall g <- files :: g.path != f.path
    requires k > 0 ==> !Before(f.path, files[k - 1].path)
    requires forall i :: k <= i < |files| ==> Before(f.path, files[i].path)
    ensures Sorted(files[..k] + [f] + files[k..])
  {
    forall i | 0 <= i < k
      ensures Before(files[i].path, f.path)
    {
      BeforeIsStrict(files[k - 1].path, f.path);
      assert files[k - 1] in files;
      if i < k - 1 {
        BeforeIsTransitive(files[i].path, files[k - 1].path, f.path);
      }
    }
    forall i, j | 0 <= i < k && k <= j < |files|
      ensures Before(files[i].path, files[j].path)
    {
    }
  }
}
