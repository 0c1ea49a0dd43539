/**
 * The photo catalog of photofiles.go: an ordered, deduplicated list of photo
 * files with a path index, the rule that admits a new file, the bootstrap scan
 * of the photo folder, and the registry of listeners that new photos are
 * broadcast to.
 */
module PhotoFiles {

  datatype Option<T> = None | Some(value: T)

  /** A photo file; the source's `time.Time` modification time is an integer. */
  datatype PhotoFile = PhotoFile(path: string, modTime: int)
  {
    /** `PhotoFile.String`: the message a photo becomes on the wire. */
    function String(): string { path }
  }

  /** One entry of the directory listing that the bootstrap scan reads. */
  datatype DirEntry = DirEntry(name: string, modTime: int)

  // ---------------------------------------------------------------------------
  // The photo-path pattern `(?i).+\.(png|jpeg|JPG)`, matched anywhere in a path
  // ---------------------------------------------------------------------------

  /** ASCII lower-casing. The letters of the pattern (p, n, g, j, e) have no
      case-fold partners outside ASCII, so this is the fold `(?i)` applies. */
  function Lower(c: char): char
  {
    if 'A' <= c <= 'Z' then (c as int - 'A' as int + 'a' as int) as char else c
  }

  /** `s[j..]` begins with the lower-case word `w`, ignoring case. */
  predicate StartsWithFolded(s: string, j: nat, w: string)
  {
    j + |w| <= |s| && forall k :: 0 <= k < |w| ==> Lower(s[j + k]) == w[k]
  }

  /** One of the three alternatives of the pattern begins at `j`; `(?i)`
      covers all of them, the upper-case `JPG` included. */
  predicate PhotoExtensionAt(s: string, j: nat)
  {
    StartsWithFolded(s, j, "png") || StartsWithFolded(s, j, "jpeg") || StartsWithFolded(s, j, "jpg")
  }

  /** The pattern matches with its literal dot at `i`: `.+` needs at least one
      character before the dot, and `.` does not match a newline (no `s` flag). */
  predicate MatchAt(s: string, i: nat)
  {
    1 <= i < |s| && s[i - 1] != '\n' && s[i] == '.' && PhotoExtensionAt(s, i + 1)
  }

  /** The reference meaning of the unanchored match: a matching dot somewhere. */
  ghost predicate MatchesPhotoPattern(s: string)
  {
    exists i: nat :: MatchAt(s, i)
  }

  /** Search for a matching dot at position `i` or later. */
  function MatchFrom(s: string, i: nat): (r: bool)
    decreases |s| - i
    ensures r <==> exists j: nat :: i <= j && MatchAt(s, j)
  {
    if i >= |s| then false else MatchAt(s, i) || MatchFrom(s, i + 1)
  }

  /** `regexp.MatchString("(?i).+\\.(png|jpeg|JPG)", path)`. */
  function IsPhotoPath(path: string): (r: bool)
    ensures r <==> MatchesPhotoPattern(path)
  {
    MatchFrom(path, 0)
  }

  /** The match is not anchored at the end: a later extension does not hide it. */
  lemma AcceptsInnerExtension()
    ensures IsPhotoPath("a.png.txt")
  {
  }

  /** Case is ignored in every alternative. */
  lemma AcceptsAnyCase()
    ensures IsPhotoPath("IMG_0001.JPG") && IsPhotoPath("b.Jpeg") && IsPhotoPath("c.PnG")
  {
    assert MatchAt("IMG_0001.JPG", 8);
    assert MatchAt("b.Jpeg", 1);
    assert MatchAt("c.PnG", 1);
  }

  /** Neither a bare extension nor another extension qualifies. */
  lemma RejectsNonPhotos()
    ensures !IsPhotoPath(".png")
    ensures !IsPhotoPath("a.gif")
    ensures !IsPhotoPath("a\n.png")
  {
    var s := "a.gif";
    assert s[2] == 'g' && Lower('g') == 'g';
    assert "png"[0] == 'p' && "jpeg"[0] == 'j' && "jpg"[0] == 'j';
    assert !StartsWithFolded(s, 2, "png");
    assert !PhotoExtensionAt(s, 2);
    assert !MatchAt(s, 1);
  }

  // ---------------------------------------------------------------------------
  // The catalog as a value, and the ingestion rule
  // ---------------------------------------------------------------------------

  function PathSet(files: seq<PhotoFile>): set<string>
  {
    set f | f in files :: f.path
  }

  /** Paths of the photo files among `pfs`. */
  function PhotoPaths(pfs: seq<PhotoFile>): set<string>
  {
    set f | f in pfs && IsPhotoPath(f.path) :: f.path
  }

  predicate DistinctPaths(files: seq<PhotoFile>)
  {
    forall i, j :: 0 <= i < j < |files| ==> files[i].path != files[j].path
  }

  /** `index` maps exactly the catalogued paths to their entries. */
  ghost predicate IndexOf(files: seq<PhotoFile>, index: map<string, PhotoFile>)
  {
    && index.Keys == PathSet(files)
    && forall i :: 0 <= i < |files| ==> files[i].path in index && index[files[i].path] == files[i]
  }

  /** The catalog after `addPhotoFile(pf)`: unchanged, or extended by `pf`
      exactly when its path is new and names a photo. */
  function Ingest(files: seq<PhotoFile>, pf: PhotoFile): (r: seq<PhotoFile>)
    ensures files <= r && |r| <= |files| + 1
    ensures r != files <==> pf.path !in PathSet(files) && IsPhotoPath(pf.path)
  {
    if pf.path in PathSet(files) || !IsPhotoPath(pf.path) then files else files + [pf]
  }

  /** The catalog after `addPhotoFile` of each of `pfs`, in order: entries
      already catalogued keep their positions, at most one entry per ingested
      file is added. */
  function IngestAll(files: seq<PhotoFile>, pfs: seq<PhotoFile>): (r: seq<PhotoFile>)
    ensures files <= r && |r| <= |files| + |pfs|
  {
    if pfs == [] then files else Ingest(IngestAll(files, pfs[..|pfs| - 1]), pfs[|pfs| - 1])
  }

  /** One more step of the left fold. */
  lemma IngestAllStep(files: seq<PhotoFile>, pfs: seq<PhotoFile>, i: nat)
    requires i < |pfs|
    ensures IngestAll(files, pfs[..i + 1]) == Ingest(IngestAll(files, pfs[..i]), pfs[i])
  {
    assert pfs[..i + 1][..i] == pfs[..i];
  }

  /** `pfs[j]` is a photo whose path is neither catalogued nor earlier in `pfs`. */
  predicate FirstNewPhotoAt(files: seq<PhotoFile>, pfs: seq<PhotoFile>, j: nat)
    requires j < |pfs|
  {
    IsPhotoPath(pfs[j].path) && pfs[j].path !in PathSet(files) && pfs[j].path !in PathSet(pfs[..j])
  }

  /** The entries of `pfs` at which `FirstNewPhotoAt` holds, in order. */
  function FirstNewPhotos(files: seq<PhotoFile>, pfs: seq<PhotoFile>): seq<PhotoFile>
  {
    if pfs == [] then []
    else FirstNewPhotos(files, pfs[..|pfs| - 1])
         + (if FirstNewPhotoAt(files, pfs, |pfs| - 1) then [pfs[|pfs| - 1]] else [])
  }

  lemma PathSetAppend(files: seq<PhotoFile>, pf: PhotoFile)
    ensures PathSet(files + [pf]) == PathSet(files) + {pf.path}
    ensures PhotoPaths(files + [pf]) == PhotoPaths(files) + (if IsPhotoPath(pf.path) then {pf.path} else {})
  {
  }

  lemma DistinctAppend(files: seq<PhotoFile>, pf: PhotoFile)
    requires DistinctPaths(files) && pf.path !in PathSet(files)
    ensures DistinctPaths(files + [pf])
  {
  }

  /** Ingesting a sequence adds exactly the paths of its photo files. */
  lemma {:induction false} IngestAllPaths(files: seq<PhotoFile>, pfs: seq<PhotoFile>)
    ensures PathSet(IngestAll(files, pfs)) == PathSet(files) + PhotoPaths(pfs)
  {
    if pfs == [] {
      assert PhotoPaths(pfs) == {};
    } else {
      var ps, p := pfs[..|pfs| - 1], pfs[|pfs| - 1];
      assert pfs == ps + [p];
      IngestAllPaths(files, ps);
      PathSetAppend(ps, p);
      PathSetAppend(IngestAll(files, ps), p);
    }
  }

  /** Ingesting keeps the catalog free of duplicate paths. */
  lemma {:induction false} IngestAllDistinct(files: seq<PhotoFile>, pfs: seq<PhotoFile>)
    requires DistinctPaths(files)
    ensures DistinctPaths(IngestAll(files, pfs))
  {
    if pfs != [] {
      var ps, p := pfs[..|pfs| - 1], pfs[|pfs| - 1];
      IngestAllDistinct(files, ps);
      if p.path !in PathSet(IngestAll(files, ps)) {
        DistinctAppend(IngestAll(files, ps), p);
      }
    }
  }

  /** Ingesting a sequence appends its photo files at the first occurrence of
      each path not yet catalogued, in order, and nothing else. */
  lemma {:induction false} IngestAllIsFirstNewPhotos(files: seq<PhotoFile>, pfs: seq<PhotoFile>)
    ensures IngestAll(files, pfs) == files + FirstNewPhotos(files, pfs)
  {
    if pfs != [] {
      var ps, p := pfs[..|pfs| - 1], pfs[|pfs| - 1];
      IngestAllIsFirstNewPhotos(files, ps);
      IngestAllPaths(files, ps);
      assert pfs[..|pfs| - 1] == ps;
      if IsPhotoPath(p.path) {
        assert p.path in PhotoPaths(ps) <==> p.path in PathSet(ps);
      }
    }
  }

  predicate SortedByModTime(s: seq<PhotoFile>)
  {
    forall i, j :: 0 <= i < j < |s| ==> s[i].modTime <= s[j].modTime
  }

  /** A catalog ingested from a list sorted by modification time is sorted. */
  lemma {:induction false} IngestAllSorted(files: seq<PhotoFile>, pfs: seq<PhotoFile>)
    requires SortedByModTime(files + pfs)
    ensures SortedByModTime(IngestAll(files, pfs))
    ensures forall f :: f in IngestAll(files, pfs) ==> f in files + pfs
  {
    if pfs == [] {
      assert files + pfs == files;
    } else {
      var ps, p := pfs[..|pfs| - 1], pfs[|pfs| - 1];
      var all := files + pfs;
      assert files + ps == all[..|all| - 1];
      assert all[|all| - 1] == p;
      IngestAllSorted(files, ps);
      var r := IngestAll(files, ps);
      forall f | f in r ensures f.modTime <= p.modTime && f in all {
        var m :| 0 <= m < |files + ps| && (files + ps)[m] == f;
        assert all[m] == f;
      }
      if IngestAll(files, pfs) != r {
        assert IngestAll(files, pfs) == r + [p];
        forall i, j | 0 <= i < j < |r + [p]| ensures (r + [p])[i].modTime <= (r + [p])[j].modTime {
          if j == |r| {
            assert (r + [p])[i] in r;
          }
        }
      }
    }
  }

  /** The path of each entry, in order: the messages sent for a list of files. */
  function PathsOf(files: seq<PhotoFile>): (paths: seq<string>)
    ensures |paths| == |files|
    ensures forall i :: 0 <= i < |files| ==> paths[i] == files[i].String()
  {
    seq(|files|, i requires 0 <= i < |files| => files[i].String())
  }

  /** The messages for the first `k` files are a prefix of those for all. */
  lemma PathsOfPrefix(files: seq<PhotoFile>, k: nat)
    requires k <= |files|
    ensures PathsOf(files[..k]) <= PathsOf(files)
  {
  }

  lemma PathsOfAppend(files: seq<PhotoFile>, pf: PhotoFile)
    ensures PathsOf(files + [pf]) == PathsOf(files) + [pf.path]
  {
  }

  // ---------------------------------------------------------------------------
  // The bootstrap scan: `ByModTime` and the list of scanned files
  // ---------------------------------------------------------------------------

  /** `ByModTime.Less`: entry `i` was modified strictly before entry `j`. */
  predicate Less(a: array<PhotoFile>, i: nat, j: nat)
    requires i < a.Length && j < a.Length
    reads a
  {
    a[i].modTime < a[j].modTime
  }

  /** `ByModTime.Swap`. */
  method Swap(a: array<PhotoFile>, i: nat, j: nat)
    requires i < a.Length && j < a.Length
    modifies a
    ensures a[i] == old(a[j]) && a[j] == old(a[i])
    ensures forall k :: 0 <= k < a.Length && k != i && k != j ==> a[k] == old(a[k])
    ensures multiset(a[..]) == old(multiset(a[..]))
  {
    a[i], a[j] := a[j], a[i];
  }

  /** `sort.Sort(ByModTime(a))`, by insertion through `Less` and `Swap`: the
      result is ordered by modification time and a permutation of the input. */
  method SortByModTime(a: array<PhotoFile>)
    modifies a
    ensures SortedByModTime(a[..])
    ensures multiset(a[..]) == old(multiset(a[..]))
  {
    var i := 0;
    while i < a.Length
      invariant 0 <= i <= a.Length
      invariant forall k, l :: 0 <= k < l < i ==> a[k].modTime <= a[l].modTime
      invariant multiset(a[..]) == old(multiset(a[..]))
    {
      var j := i;
      while j > 0 && Less(a, j, j - 1)
        invariant 0 <= j <= i < a.Length
        invariant forall k, l :: 0 <= k < l <= i && k != j && l != j ==> a[k].modTime <= a[l].modTime
        invariant forall l :: j < l <= i ==> a[j].modTime < a[l].modTime
        invariant multiset(a[..]) == old(multiset(a[..]))
      {
        Swap(a, j - 1, j);
        j := j - 1;
      }
      i := i + 1;
    }
  }

  /** The scanned entry for `e`: `strings.Join([]string{folder, e.name}, "/")`. */
  function ScanEntry(folder: string, e: DirEntry): PhotoFile
  {
    PhotoFile(folder + "/" + e.name, e.modTime)
  }

  /** The first loop of `scanPhotoFolder`: one entry per listed file, in order. */
  method ScanListing(folder: string, listing: seq<DirEntry>) returns (scanned: seq<PhotoFile>)
    ensures |scanned| == |listing|
    ensures forall i :: 0 <= i < |listing| ==>
              scanned[i].path == folder + "/" + listing[i].name && scanned[i].modTime == listing[i].modTime
  {
    scanned := [];
    for i := 0 to |listing|
      invariant |scanned| == i
      invariant forall k :: 0 <= k < i ==> scanned[k] == ScanEntry(folder, listing[k])
    {
      scanned := scanned + [ScanEntry(folder, listing[i])];
    }
  }

  // ---------------------------------------------------------------------------
  // Listeners and the service
  // ---------------------------------------------------------------------------

  /** A `chan *PhotoFile` registered for new photos: the photo files sent on
      it and not yet received, oldest first, and whether it has been closed. */
  class PhotoListener {
    var queue: seq<PhotoFile>
    var closed: bool

    constructor ()
      ensures queue == [] && !closed
    {
      queue := [];
      closed := false;
    }
  }

  class PhotoFileService {
    const photoFolder: string
    var photoFiles: seq<PhotoFile>
    var pathToPhotoFile: map<string, PhotoFile>
    /** Every photo file sent on `newPhotoFilesChan`, in order. */
    var newPhotoFilesChan: seq<PhotoFile>
    var newPhotoListeners: set<PhotoListener>

    /** The index covers exactly the catalog, and no path appears twice. */
    ghost predicate Valid()
      reads this
    {
      DistinctPaths(photoFiles) && IndexOf(photoFiles, pathToPhotoFile)
    }

    /** No registered listener has been closed, so a send to one cannot panic. */
    ghost predicate ListenersOpen()
      reads this, newPhotoListeners
    {
      forall l :: l in newPhotoListeners ==> !l.closed
    }

    /** `NewPhotoFileService`. */
    constructor (photoFolder: string)
      ensures Valid() && ListenersOpen()
      ensures this.photoFolder == photoFolder
      ensures photoFiles == [] && pathToPhotoFile == map[] && newPhotoFilesChan == [] && newPhotoListeners == {}
    {
      this.photoFolder := photoFolder;
      photoFiles := [];
      pathToPhotoFile := map[];
      newPhotoFilesChan := [];
      newPhotoListeners := {};
    }

    /** The first ten catalog entries; the slice expression needs ten of them. */
    function GetRecentPhotoFiles(): (recent: seq<PhotoFile>)
      reads this
      requires |photoFiles| >= 10
      ensures |recent| == 10 && recent <= photoFiles
      ensures DistinctPaths(photoFiles) ==> DistinctPaths(recent)
    {
      photoFiles[..10]
    }

    /** `addPhotoFile`: admit `pf` when its path is new and names a photo. */
    method AddPhotoFile(pf: PhotoFile) returns (added: bool)
      requires Valid()
      modifies this
      ensures Valid()
      ensures added <==> pf.path !in old(pathToPhotoFile) && IsPhotoPath(pf.path)
      ensures added ==> && photoFiles == old(photoFiles) + [pf]
                        && pathToPhotoFile == old(pathToPhotoFile)[pf.path := pf]
                        && newPhotoFilesChan == old(newPhotoFilesChan) + [pf]
      ensures !added ==> && photoFiles == old(photoFiles)
                         && pathToPhotoFile == old(pathToPhotoFile)
                         && newPhotoFilesChan == old(newPhotoFilesChan)
      ensures photoFiles == Ingest(old(photoFiles), pf)
      ensures newPhotoListeners == old(newPhotoListeners)
    {
      if pf.path in pathToPhotoFile {
        return false;
      }
      if !IsPhotoPath(pf.path) {
        return false;
      }
      DistinctAppend(photoFiles, pf);
      PathSetAppend(photoFiles, pf);
      pathToPhotoFile := pathToPhotoFile[pf.path := pf];
      photoFiles := photoFiles + [pf];
      newPhotoFilesChan := newPhotoFilesChan + [pf];
      return true;
    }

    /** The second loop of `scanPhotoFolder`: `addPhotoFile` of each of
        `pfs`, in order. The catalog and the outbox gain exactly the first new
        photo of each path, in the order of `pfs`. */
    method AddPhotoFiles(pfs: seq<PhotoFile>)
      requires Valid()
      modifies this
      ensures Valid()
      ensures photoFiles == old(photoFiles) + FirstNewPhotos(old(photoFiles), pfs)
      ensures newPhotoFilesChan == old(newPhotoFilesChan) + FirstNewPhotos(old(photoFiles), pfs)
      ensures newPhotoListeners == old(newPhotoListeners)
    {
      ghost var gained: seq<PhotoFile> := [];
      for i := 0 to |pfs|
        invariant Valid()
        invariant photoFiles == IngestAll(old(photoFiles), pfs[..i])
        invariant photoFiles == old(photoFiles) + gained
        invariant newPhotoFilesChan == old(newPhotoFilesChan) + gained
        invariant newPhotoListeners == old(newPhotoListeners)
      {
        IngestAllStep(old(photoFiles), pfs, i);
        var added := AddPhotoFile(pfs[i]);
        if added {
          gained := gained + [pfs[i]];
        }
      }
      assert pfs[..|pfs|] == pfs;
      IngestAllIsFirstNewPhotos(old(photoFiles), pfs);
      assert gained == photoFiles[|old(photoFiles)|..];
    }

    /** `scanPhotoFolder` over a given directory listing: scan, sort by
        modification time, then ingest in that order. `sorted` is the order
        the sort chose, which is unspecified among equal modification times. */
    method ScanPhotoFolder(listing: seq<DirEntry>) returns (ghost sorted: seq<PhotoFile>)
      requires Valid()
      modifies this
      ensures Valid()
      ensures SortedByModTime(sorted)
      ensures multiset(sorted) == multiset(seq(|listing|, i requires 0 <= i < |listing| => ScanEntry(photoFolder, listing[i])))
      ensures photoFiles == old(photoFiles) + FirstNewPhotos(old(photoFiles), sorted)
      ensures newPhotoFilesChan == old(newPhotoFilesChan) + FirstNewPhotos(old(photoFiles), sorted)
      ensures PathSet(photoFiles) == PathSet(old(photoFiles)) + PhotoPaths(sorted)
      ensures old(photoFiles) == [] ==> SortedByModTime(photoFiles)
      ensures newPhotoListeners == old(newPhotoListeners)
    {
      var scanned := ScanListing(photoFolder, listing);
      var a := new PhotoFile[|scanned|](i requires 0 <= i < |scanned| => scanned[i]);
      assert a[..] == scanned;
      assert scanned == seq(|listing|, i requires 0 <= i < |listing| => ScanEntry(photoFolder, listing[i]));
      SortByModTime(a);
      var s := a[..];
      sorted := s;
      ghost var files0 := photoFiles;
      AddPhotoFiles(s);
      IngestAllIsFirstNewPhotos(files0, s);
      IngestAllPaths(files0, s);
      if files0 == [] {
        assert files0 + s == s;
        IngestAllSorted(files0, s);
      }
    }

    /** A create event from the folder watcher: the photo file built from the
        absolute path and the modification time `stat` found is ingested; an
        event of any other kind, or a failed stat, is skipped. */
    method HandleFileEvent(isCreate: bool, absolutePath: string, stat: Option<int>) returns (added: bool)
      requires Valid()
      modifies this
      ensures Valid()
      ensures added <==> isCreate && stat.Some? && absolutePath !in old(pathToPhotoFile) && IsPhotoPath(absolutePath)
      ensures photoFiles == if isCreate && stat.Some? then Ingest(old(photoFiles), PhotoFile(absolutePath, stat.value))
                            else old(photoFiles)
      ensures added ==> && newPhotoFilesChan == old(newPhotoFilesChan) + [PhotoFile(absolutePath, stat.value)]
                        && pathToPhotoFile == old(pathToPhotoFile)[absolutePath := PhotoFile(absolutePath, stat.value)]
      ensures !added ==> newPhotoFilesChan == old(newPhotoFilesChan) && pathToPhotoFile == old(pathToPhotoFile)
      ensures newPhotoListeners == old(newPhotoListeners)
    {
      added := false;
      if isCreate {
        if stat.None? {
          return;
        }
        added := AddPhotoFile(PhotoFile(absolutePath, stat.value));
      }
    }

    /** `broadCastNewPhotoFile`: send `pf` once on every registered listener. */
    method BroadCastNewPhotoFile(pf: PhotoFile)
      requires ListenersOpen()
      modifies newPhotoListeners
      ensures ListenersOpen()
      ensures newPhotoListeners == old(newPhotoListeners)
      ensures forall l :: l in newPhotoListeners ==> l.queue == old(l.queue) + [pf]
    {
      var pending := newPhotoListeners;
      while pending != {}
        invariant pending <= newPhotoListeners
        invariant forall l :: l in newPhotoListeners && l !in pending ==> l.queue == old(l.queue) + [pf]
        invariant forall l :: l in pending ==> l.queue == old(l.queue)
        invariant forall l :: l in newPhotoListeners ==> l.closed == old(l.closed)
        decreases pending
      {
        var l :| l in pending;
        assert !l.closed;
        l.queue := l.queue + [pf];
        pending := pending - {l};
      }
    }

    /** `unregisterNewPhotoListener`: remove and close a registered listener;
        a listener that is not registered is left alone. */
    method UnregisterNewPhotoListener(listener: PhotoListener)
      requires listener in newPhotoListeners ==> !listener.closed
      modifies this, listener
      ensures newPhotoListeners == old(newPhotoListeners) - {listener}
      ensures listener.closed == (old(listener.closed) || listener in old(newPhotoListeners))
      ensures listener.queue == old(listener.queue)
      ensures old(ListenersOpen()) ==> ListenersOpen()
      ensures photoFiles == old(photoFiles) && pathToPhotoFile == old(pathToPhotoFile)
      ensures newPhotoFilesChan == old(newPhotoFilesChan)
    {
      if listener !in newPhotoListeners {
        return;
      }
      newPhotoListeners := newPhotoListeners - {listener};
      listener.closed := true;
    }

    /** `registerNewPhotoListener`: insert into the listener set. */
    method RegisterNewPhotoListener(listener: PhotoListener)
      modifies this
      ensures newPhotoListeners == old(newPhotoListeners) + {listener}
      ensures ListenersOpen() <==> old(ListenersOpen()) && !listener.closed
      ensures photoFiles == old(photoFiles) && pathToPhotoFile == old(pathToPhotoFile)
      ensures newPhotoFilesChan == old(newPhotoFilesChan)
    {
      newPhotoListeners := newPhotoListeners + {listener};
    }
  }
}
