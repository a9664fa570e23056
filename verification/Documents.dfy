/** Rendered documents beside a database that can roll back: app/documents/service.py. Rows live in a
    session that is committed or rolled back; files are written at once and stay. */
module Documents {
  import opened Base
  import opened Storage

  datatype Validation = Passed | NeedsReview | Failed

  /** (preparation, type, format): what has at most one ACTIVE artifact. */
  datatype Key = Key(prep: string, kind: string, fmt: Format)

  datatype Row = Row(key: Key, version: nat, active: bool, validation: Validation, hash: string, size: nat,
    fingerprint: string, path: Path)

  /** What the renderer makes of the request. */
  datatype Rendering = CannotRender | RenderFailed | Rendered(data: Bytes, validation: Validation)

  /** What `get_or_render` finds out before it looks at the rows. */
  datatype Request = Request(ready: bool, rendererKnown: bool, hasContent: bool, fingerprint: string, force: bool,
    rendering: Rendering)

  datatype Refusal = NotReady | NoRenderer | NoContent | Unrenderable | InvalidDocument | UnsafePath | AlreadyExists

  datatype Answer = Reused(row: nat) | Created(row: nat) | Refused(why: Refusal)

  const ORPHAN_VERSION_SKIP_LIMIT: nat := 50

  // -------------------------------------------------------------------- rows

  function LatestVersion(rows: seq<Row>, key: Key): (v: nat)
    ensures forall i :: 0 <= i < |rows| && rows[i].key == key ==> rows[i].version <= v
    ensures v == 0 || exists i :: 0 <= i < |rows| && rows[i].key == key && rows[i].version == v
  {
    if rows == [] then 0
    else
      var n := |rows| - 1;
      var before := LatestVersion(rows[..n], key);
      if rows[n].key == key && before < rows[n].version then rows[n].version else before
  }

  ghost predicate OneActive(rows: seq<Row>) {
    forall i, j ::
      0 <= i < |rows| && 0 <= j < |rows| && rows[i].active && rows[j].active && rows[i].key == rows[j].key ==> i == j
  }

  ghost predicate VersionsDistinct(rows: seq<Row>) {
    forall i, j ::
      0 <= i < |rows| && 0 <= j < |rows| && rows[i].key == rows[j].key && rows[i].version == rows[j].version ==> i == j
  }

  /** Every row names the place its version determines. */
  ghost predicate Located(place: (Key, int) -> Option<Path>, rows: seq<Row>) {
    forall i :: 0 <= i < |rows| ==> 1 <= rows[i].version && place(rows[i].key, rows[i].version) == Some(rows[i].path)
  }

  /** What the rows promise among themselves, whatever has become of the files. */
  ghost predicate Structured(place: (Key, int) -> Option<Path>, rows: seq<Row>) {
    Located(place, rows) && OneActive(rows) && VersionsDistinct(rows)
  }

  /** The files the rows stand for hold the bytes they recorded. */
  ghost predicate Backed(files: map<Path, Bytes>, digest: Bytes -> string, rows: seq<Row>) {
    forall i :: 0 <= i < |rows| ==>
      rows[i].path in files && digest(files[rows[i].path]) == rows[i].hash && |files[rows[i].path]| == rows[i].size
  }

  predicate Stored(files: map<Path, Bytes>, place: (Key, int) -> Option<Path>, key: Key, v: int) {
    place(key, v).Some? && place(key, v).value in files
  }

  /** The versions of a key that have a file are 1, 2, ... without a gap. */
  ghost predicate Contiguous(files: map<Path, Bytes>, place: (Key, int) -> Option<Path>) {
    forall key: Key, v: int, w: int :: 1 <= v <= w && Stored(files, place, key, w) ==> Stored(files, place, key, v)
  }

  /** What `relative_path` guarantees of places: a place belongs to one version, and keys that share one
      share them all. */
  ghost predicate Placed(place: (Key, int) -> Option<Path>) {
    && (forall key: Key, v: int, key': Key, w: int :: place(key, v).Some? && place(key, v) == place(key', w) ==>
          v == w && forall u :: place(key, u) == place(key', u))
    && (forall key: Key, v: int, w: int :: place(key, v).Some? && 1 <= w ==> place(key, w).Some?)
    && (forall key: Key, v: int :: place(key, v).Some? ==> 1 <= v)
  }

  function PlaceIn(tenant: string, home: string -> string): (Key, int) -> Option<Path> {
    (key: Key, v: int) => RelativePath(tenant, home(key.prep), key.prep, key.kind, key.fmt, v)
  }

  lemma SamePlaces(tenant: string, home: string -> string, key: Key, v: int, key': Key, w: int)
    requires PlaceIn(tenant, home)(key, v).Some? && PlaceIn(tenant, home)(key, v) == PlaceIn(tenant, home)(key', w)
    ensures v == w && forall u :: PlaceIn(tenant, home)(key, u) == PlaceIn(tenant, home)(key', u)
  {
    var x := RelativePath(tenant, home(key.prep), key.prep, key.kind, key.fmt, v);
    var y := RelativePath(tenant, home(key'.prep), key'.prep, key'.kind, key'.fmt, w);
    assert x == PlaceIn(tenant, home)(key, v) == y;
    assert ArtifactName(key.kind) == ArtifactName(key'.kind);
    forall u ensures PlaceIn(tenant, home)(key, u) == PlaceIn(tenant, home)(key', u) {
      assert PlaceIn(tenant, home)(key, u) == RelativePath(tenant, home(key.prep), key.prep, key.kind, key.fmt, u);
      assert PlaceIn(tenant, home)(key', u) == RelativePath(tenant, home(key'.prep), key'.prep, key'.kind, key'.fmt, u);
    }
  }

  lemma PlaceInIsPlaced(tenant: string, home: string -> string)
    ensures Placed(PlaceIn(tenant, home))
  {
    var place := PlaceIn(tenant, home);
    assert forall key: Key, v: int ::
      place(key, v) == RelativePath(tenant, home(key.prep), key.prep, key.kind, key.fmt, v);
    forall key: Key, v: int, key': Key, w: int | place(key, v).Some? && place(key, v) == place(key', w)
      ensures v == w && forall u :: place(key, u) == place(key', u)
    {
      SamePlaces(tenant, home, key, v, key', w);
    }
  }

  // ------------------------------------------------------------- preservation

  lemma WriteKeepsContiguous(files: map<Path, Bytes>, place: (Key, int) -> Option<Path>, key: Key, v: int, data: Bytes)
    requires Contiguous(files, place) && Placed(place) && place(key, v).Some?
    requires forall u :: 1 <= u < v ==> Stored(files, place, key, u)
    ensures Contiguous(files[place(key, v).value := data], place)
  {
    var files' := files[place(key, v).value := data];
    forall key': Key, u: int, w: int | 1 <= u <= w && Stored(files', place, key', w)
      ensures Stored(files', place, key', u) {
      if Stored(files, place, key', w) {
        assert Stored(files, place, key', u);
      } else {
        assert place(key', w) == place(key, v);
        assert place(key', u) == place(key, u);
        assert u < v ==> Stored(files, place, key, u);
      }
    }
  }

  /** The rows after one of them is invalidated. */
  function Retired(rows: seq<Row>, i: nat): seq<Row>
    requires i < |rows|
  {
    rows[i := rows[i].(active := false)]
  }

  lemma RetireKeepsStructure(place: (Key, int) -> Option<Path>, rows: seq<Row>, i: nat)
    requires Structured(place, rows) && i < |rows|
    ensures Structured(place, Retired(rows, i))
    ensures rows[i].active ==> forall j :: 0 <= j < |rows| && rows[j].key == rows[i].key ==> !Retired(rows, i)[j].active
  {
  }

  /** A new file damages none, and is the file of its own row. */
  lemma WriteKeepsBacked(files: map<Path, Bytes>, digest: Bytes -> string, rows: seq<Row>, row: Row, data: Bytes)
    requires Backed(files, digest, rows) && row.path !in files && row.hash == digest(data) && row.size == |data|
    ensures Backed(files[row.path := data], digest, rows) && Backed(files[row.path := data], digest, rows + [row])
  {
  }

  lemma AppendKeepsStructure(place: (Key, int) -> Option<Path>, rows: seq<Row>, row: Row)
    requires Structured(place, rows) && 1 <= row.version && place(row.key, row.version) == Some(row.path)
    requires forall i :: 0 <= i < |rows| && rows[i].key == row.key ==> !rows[i].active && rows[i].version < row.version
    ensures Structured(place, rows + [row])
  {
  }

  // ------------------------------------------------------------------ service

  /** An ACTIVE artifact of this key, made from these inputs, whose file still verifies. */
  ghost predicate Reusable(files: map<Path, Bytes>, digest: Bytes -> string, maxBytes: nat, row: Row, key: Key,
                           fingerprint: string) {
    && row.key == key && row.active && row.fingerprint == fingerprint
    && Intact(files, digest, maxBytes, row.path, row.hash, row.size, key.fmt)
  }

  ghost predicate AnyReusable(files: map<Path, Bytes>, digest: Bytes -> string, maxBytes: nat, rows: seq<Row>, key: Key,
                              fingerprint: string) {
    exists i :: 0 <= i < |rows| && Reusable(files, digest, maxBytes, rows[i], key, fingerprint)
  }

  /** Each answer exactly in its own case: the request's own faults first, then reuse unless it is forced, then the
      rendering's faults, then a place that is unsafe or blocked. */
  predicate AnsweredAs(req: Request, reusable: bool, safe: bool, blocked: bool, answer: Answer) {
    var proper := req.ready && req.rendererKnown && req.hasContent;
    var anew := proper && (req.force || !reusable);
    var good := anew && req.rendering.Rendered? && req.rendering.validation != Failed;
    match answer
    case Reused(_) => proper && !req.force && reusable
    case Created(_) => good && safe && !blocked
    case Refused(why) =>
      match why
      case NotReady => !req.ready
      case NoRenderer => req.ready && !req.rendererKnown
      case NoContent => req.ready && req.rendererKnown && !req.hasContent
      case Unrenderable => anew && !req.rendering.Rendered?
      case InvalidDocument => anew && req.rendering.Rendered? && req.rendering.validation == Failed
      case UnsafePath => good && !safe
      case AlreadyExists => good && safe && blocked
  }

  /** A new ACTIVE artifact after the latest row, past files that have no row; no other file changed. */
  ghost predicate WrittenAs(files: map<Path, Bytes>, files': map<Path, Bytes>, place: (Key, int) -> Option<Path>,
                            row: Row, key: Key, req: Request, latest: nat) {
    && row.key == key && row.active && row.fingerprint == req.fingerprint && req.rendering.Rendered?
    && row.path !in files && files' == files[row.path := req.rendering.data]
    && place(key, row.version) == Some(row.path)
    && latest < row.version && forall v :: latest < v < row.version ==> Stored(files, place, key, v)
  }

  /** More than fifty files of the key follow its latest row without a gap. */
  predicate Blocked(files: map<Path, Bytes>, place: (Key, int) -> Option<Path>, rows: seq<Row>, key: Key) {
    var latest := LatestVersion(rows, key);
    forall v :: latest < v <= latest + 1 + ORPHAN_VERSION_SKIP_LIMIT ==> Stored(files, place, key, v)
  }

  /** Retiring the key's artifact changes nothing but the `active` mark. */
  ghost predicate KeyRetired(rows: seq<Row>, rows': seq<Row>, key: Key) {
    && |rows'| == |rows|
    && forall i :: 0 <= i < |rows| ==> rows'[i] == rows[i].(active := rows[i].active && rows[i].key != key)
  }

  lemma {:induction false} SameLatest(rows: seq<Row>, rows': seq<Row>, key: Key)
    requires |rows'| == |rows|
    requires forall i :: 0 <= i < |rows| ==> rows'[i].key == rows[i].key && rows'[i].version == rows[i].version
    ensures LatestVersion(rows', key) == LatestVersion(rows, key)
  {
    if rows != [] {
      var n := |rows| - 1;
      SameLatest(rows[..n], rows'[..n], key);
    }
  }

  class DocumentService {
    const place: (Key, int) -> Option<Path>   // `relative_path` for this tenant
    const store: ArtifactStore
    var rows: seq<Row>                 // the session
    var committed: seq<Row>
    var rendered: nat
    var reused: nat
    var invalidated: nat

    ghost predicate Valid()
      reads this
    {
      Placed(place) && Structured(place, rows) && Structured(place, committed)
    }

    /** Nobody but this service has touched the files. */
    ghost predicate Undamaged()
      reads this, store
    {
      && Backed(store.files, store.digest, rows)
      && Backed(store.files, store.digest, committed)
      && Contiguous(store.files, place)
    }

    /** A new service over an empty store; `home` gives the candidate opportunity of each preparation. */
    constructor (tenant: string, home: string -> string, store: ArtifactStore)
      requires store.files == map[]
      ensures Valid() && Undamaged() && rows == [] && this.store == store && place == PlaceIn(tenant, home)
    {
      PlaceInIsPlaced(tenant, home);
      this.place, this.store := PlaceIn(tenant, home), store;
      rows, committed := [], [];
      rendered, reused, invalidated := 0, 0, 0;
    }

    method Commit()
      requires Valid()
      modifies this
      ensures Valid() && committed == rows == old(rows)
      ensures old(Undamaged()) ==> Undamaged()
    {
      committed := rows;
    }

    method Rollback()
      requires Valid()
      modifies this
      ensures Valid() && rows == committed == old(committed)
      ensures old(Undamaged()) ==> Undamaged()
    {
      rows := committed;
    }

    /** The ACTIVE row of a key, the newest if there were several. */
    method Active(key: Key) returns (found: Option<nat>)
      ensures found.Some? ==> found.value < |rows| && rows[found.value].key == key && rows[found.value].active
      ensures found.None? ==> forall i :: 0 <= i < |rows| && rows[i].key == key ==> !rows[i].active
    {
      found := None;
      for i := 0 to |rows|
        invariant found.Some? ==> found.value < i && rows[found.value].key == key && rows[found.value].active
        invariant found.None? ==> forall j :: 0 <= j < i && rows[j].key == key ==> !rows[j].active
      {
        if rows[i].key == key && rows[i].active && (found.None? || rows[found.value].version < rows[i].version) {
          found := Some(i);
        }
      }
    }

    method Invalidate(i: nat)
      requires Valid() && i < |rows|
      modifies this
      ensures Valid() && rows == Retired(old(rows), i) && committed == old(committed)
      ensures invalidated == old(invalidated) + if old(rows)[i].active then 1 else 0
      ensures rendered == old(rendered) && reused == old(reused)
      ensures old(Undamaged()) ==> Undamaged()
    {
      RetireKeepsStructure(place, rows, i);
      if !rows[i].active {
        return;
      }
      rows := rows[i := rows[i].(active := false)];
      invalidated := invalidated + 1;
    }

    /** The version loop of `get_or_render`: past at most fifty files that have no row. */
    method ChooseVersion(key: Key, first: nat) returns (version: nat)
      requires Placed(place) && 1 <= first && place(key, first).Some?
      ensures first <= version <= first + ORPHAN_VERSION_SKIP_LIMIT && place(key, version).Some?
      ensures forall v :: first <= v < version ==> Stored(store.files, place, key, v)
      ensures version < first + ORPHAN_VERSION_SKIP_LIMIT ==> !Stored(store.files, place, key, version)
    {
      version := first;
      var skipped := 0;
      var path := place(key, version);
      while path.value in store.files && skipped < ORPHAN_VERSION_SKIP_LIMIT
        invariant version == first + skipped && skipped <= ORPHAN_VERSION_SKIP_LIMIT
        invariant path == place(key, version) && path.Some?
        invariant forall v :: first <= v < version ==> Stored(store.files, place, key, v)
        decreases ORPHAN_VERSION_SKIP_LIMIT - skipped
      {
        skipped := skipped + 1;
        version := version + 1;
        path := place(key, version);
      }
    }

    /** Step one of `get_or_render`: reuse the ACTIVE artifact, or retire it. */
    method ReuseOrRetire(key: Key, req: Request) returns (found: Option<nat>)
      requires Valid()
      modifies this
      ensures Valid() && committed == old(committed) && rendered == old(rendered)
      ensures found.Some? ==> rows == old(rows) && found.value < |rows| && reused == old(reused) + 1
      ensures found.Some? ==>
        !req.force && Reusable(store.files, store.digest, store.maxBytes, rows[found.value], key, req.fingerprint)
      ensures found.None? ==> KeyRetired(old(rows), rows, key) && reused == old(reused)
      ensures old(Undamaged()) ==> Undamaged()
      ensures found.Some? <==>
        !req.force && AnyReusable(store.files, store.digest, store.maxBytes, old(rows), key, req.fingerprint)
    {
      var current := Active(key);
      if current.None? {
        return None;
      }
      var row := rows[current.value];
      if !req.force && row.fingerprint == req.fingerprint {
        var problems := store.Verify(row.path, row.hash, row.size, key.fmt);
        if problems == [] {
          reused := reused + 1;
          return current;
        }
      }
      Invalidate(current.value);
      return None;
    }

    /** `get_or_render`. */
    method GetOrRender(key: Key, req: Request) returns (answer: Answer)
      requires Valid()
      modifies this, store
      ensures Valid() && committed == old(committed) && (old(Undamaged()) ==> Undamaged())
      ensures answer.Reused? ==> rows == old(rows) && answer.row < |rows| && store.files == old(store.files)
      ensures answer.Reused? ==>
        Reusable(store.files, store.digest, store.maxBytes, rows[answer.row], key, req.fingerprint)
      ensures answer.Created? ==>
        answer.row == |old(rows)| && |rows| == answer.row + 1 && KeyRetired(old(rows), rows[..answer.row], key)
      ensures answer.Created? ==>
        WrittenAs(old(store.files), store.files, place, rows[answer.row], key, req, LatestVersion(old(rows), key))
      ensures answer.Created? ==> !Blocked(old(store.files), place, old(rows), key)
      ensures answer.Created? && !req.force ==>
        !AnyReusable(old(store.files), store.digest, store.maxBytes, old(rows), key, req.fingerprint)
      ensures answer.Refused? ==>
        && store.files == old(store.files)
        && (if answer.why in {NotReady, NoRenderer, NoContent} then rows == old(rows)
            else KeyRetired(old(rows), rows, key))
      ensures AnsweredAs(req,
                         AnyReusable(old(store.files), store.digest, store.maxBytes, old(rows), key, req.fingerprint),
                         place(key, LatestVersion(old(rows), key) + 1).Some?,
                         Blocked(old(store.files), place, old(rows), key), answer)
    {
      if !req.ready { return Refused(NotReady); }
      if !req.rendererKnown { return Refused(NoRenderer); }
      if !req.hasContent { return Refused(NoContent); }
      var found := ReuseOrRetire(key, req);
      if found.Some? {
        return Reused(found.value);
      }
      SameLatest(old(rows), rows, key);
      answer := RenderAnew(key, req);
    }

    /** What was rendered is good, and is written. */
    method RenderAnew(key: Key, req: Request) returns (answer: Answer)
      requires Valid()
      requires forall i :: 0 <= i < |rows| && rows[i].key == key ==> !rows[i].active
      modifies this, store
      ensures Valid() && committed == old(committed) && (old(Undamaged()) ==> Undamaged())
      ensures answer.Refused? ==> rows == old(rows) && store.files == old(store.files)
      ensures answer.Created? ==>
        answer.row == |old(rows)| && |rows| == answer.row + 1 && rows[..answer.row] == old(rows)
      ensures answer.Created? ==>
        WrittenAs(old(store.files), store.files, place, rows[answer.row], key, req, LatestVersion(old(rows), key))
      ensures AnsweredAs(req.(ready := true, rendererKnown := true, hasContent := true, force := true), false,
                         place(key, LatestVersion(old(rows), key) + 1).Some?,
                         Blocked(old(store.files), place, old(rows), key), answer)
    {
      if !req.rendering.Rendered? { return Refused(Unrenderable); }
      if req.rendering.validation.Failed? { return Refused(InvalidDocument); }
      answer := WriteVersion(key, req);
    }

    /** The rest of it: choose a version, write the file, add the row. It fails for want of a version exactly
        when more than fifty files follow the latest row. */
    method WriteVersion(key: Key, req: Request) returns (answer: Answer)
      requires Valid() && req.rendering.Rendered?
      requires forall i :: 0 <= i < |rows| && rows[i].key == key ==> !rows[i].active
      modifies this, store
      ensures Valid() && committed == old(committed) && (old(Undamaged()) ==> Undamaged())
      ensures answer.Created? || answer == Refused(UnsafePath) || answer == Refused(AlreadyExists)
      ensures answer.Refused? ==> rows == old(rows) && store.files == old(store.files)
      ensures answer == Refused(UnsafePath) <==> place(key, LatestVersion(old(rows), key) + 1).None?
      ensures answer == Refused(AlreadyExists) <==> Blocked(old(store.files), place, old(rows), key)
      ensures answer.Created? ==>
        answer.row == |old(rows)| && |rows| == answer.row + 1 && rows[..answer.row] == old(rows)
      ensures answer.Created? ==>
        WrittenAs(old(store.files), store.files, place, rows[answer.row], key, req, LatestVersion(old(rows), key))
    {
      var latest := LatestVersion(rows, key);
      var path := place(key, latest + 1);
      if path.None? {
        assert !Stored(store.files, place, key, latest + 1);
        return Refused(UnsafePath);
      }
      var version := ChooseVersion(key, latest + 1);
      path := place(key, version);
      if path.value in store.files {
        assert version == latest + 1 + ORPHAN_VERSION_SKIP_LIMIT;
        return Refused(AlreadyExists);
      }
      assert !Stored(store.files, place, key, version);
      AddArtifact(key, req, version, path.value);
      answer := Created(|rows| - 1);
    }

    method AddArtifact(key: Key, req: Request, version: nat, path: Path)
      requires Valid() && req.rendering.Rendered? && place(key, version) == Some(path) && path !in store.files
      requires forall i :: 0 <= i < |rows| && rows[i].key == key ==> !rows[i].active
      requires LatestVersion(rows, key) < version
      requires forall u :: LatestVersion(rows, key) < u < version ==> Stored(store.files, place, key, u)
      modifies this, store
      ensures Valid() && committed == old(committed) && (old(Undamaged()) ==> Undamaged())
      ensures |rows| == |old(rows)| + 1 && rows[..|old(rows)|] == old(rows) && rows[|old(rows)|].version == version
      ensures WrittenAs(old(store.files), store.files, place, rows[|old(rows)|], key, req,
                        LatestVersion(old(rows), key))
    {
      ghost var files, whole := store.files, Undamaged();
      var data := req.rendering.data;
      var row := Row(key, version, true, req.rendering.validation, store.digest(data), |data|, req.fingerprint, path);
      if whole {
        LatestIsStored(key);
        WriteKeepsContiguous(files, place, key, version, data);
        WriteKeepsBacked(files, store.digest, rows, row, data);
        WriteKeepsBacked(files, store.digest, committed, row, data);
      }
      AppendKeepsStructure(place, rows, row);
      var written := store.WriteImmutable(path, data);
      assert written && store.files == files[path := data];
      rows := rows + [row];
      rendered := rendered + 1;
    }

    lemma LatestIsStored(key: Key)
      requires Valid() && Undamaged()
      ensures forall v :: 1 <= v <= LatestVersion(rows, key) ==> Stored(store.files, place, key, v)
    {
      var latest := LatestVersion(rows, key);
      if 0 < latest {
        var i :| 0 <= i < |rows| && rows[i].key == key && rows[i].version == latest;
        assert Stored(store.files, place, key, latest);
      }
    }

    /** In an undamaged store a new artifact takes the first version that has no file at all. */
    lemma FirstFreeVersion(key: Key, row: Row, req: Request, files': map<Path, Bytes>)
      requires Valid() && Undamaged() && WrittenAs(store.files, files', place, row, key, req, LatestVersion(rows, key))
      ensures !Stored(store.files, place, key, row.version)
      ensures forall v :: 1 <= v < row.version ==> Stored(store.files, place, key, v)
    {
      LatestIsStored(key);
    }

    /** `materialize`: the path of an ACTIVE, validated artifact whose file still verifies; a damaged one is
        invalidated. */
    method Materialize(i: nat, prep: Option<string>, forUpload: bool) returns (path: Option<Path>)
      requires Valid() && i < |rows|
      modifies this
      ensures Valid() && committed == old(committed) && (old(Undamaged()) ==> Undamaged())
      ensures var row := old(rows)[i];
        var eligible := row.active && (prep.None? || row.key.prep == prep.value) && !row.validation.Failed?
          && !(forUpload && row.validation.NeedsReview?);
        var intact := Intact(store.files, store.digest, store.maxBytes, row.path, row.hash, row.size, row.key.fmt);
        && path == (if eligible && intact then Some(row.path) else None)
        && rows == (if eligible && !intact then Retired(old(rows), i) else old(rows))
    {
      var row := rows[i];
      if !row.active { return None; }
      if prep.Some? && row.key.prep != prep.value { return None; }
      if row.validation.Failed? { return None; }
      if forUpload && row.validation.NeedsReview? { return None; }
      var problems := store.Verify(row.path, row.hash, row.size, row.key.fmt);
      if problems != [] {
        Invalidate(i);
        return None;
      }
      return Some(row.path);
    }
  }

  /** In an undamaged store the block is one file, the fifty-first after the latest row, and no commit, rollback
      or further attempt ever lifts it: files stay, and without a new row the latest version can only fall. */
  lemma BlockedForGood(files: map<Path, Bytes>, files': map<Path, Bytes>, place: (Key, int) -> Option<Path>,
                       rows: seq<Row>, rows': seq<Row>, key: Key)
    requires Contiguous(files, place) && Contiguous(files', place)
    requires forall p :: p in files ==> p in files'
    requires LatestVersion(rows', key) <= LatestVersion(rows, key)
    ensures Blocked(files, place, rows, key) <==>
      Stored(files, place, key, LatestVersion(rows, key) + 1 + ORPHAN_VERSION_SKIP_LIMIT)
    ensures Blocked(files, place, rows, key) ==> Blocked(files', place, rows', key)
  {
    var latest, latest' := LatestVersion(rows, key), LatestVersion(rows', key);
    var last := latest + 1 + ORPHAN_VERSION_SKIP_LIMIT;
    if Stored(files, place, key, last) {
      assert Stored(files', place, key, last);
      assert forall v :: latest < v <= last ==> Stored(files, place, key, v);
      assert forall v :: latest' < v <= latest' + 1 + ORPHAN_VERSION_SKIP_LIMIT ==>
        1 <= v <= last && Stored(files', place, key, v);
    }
  }
}
