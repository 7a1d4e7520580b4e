/** The design record service: the object store (path to blob) and the
    record collection (id to design), and the four operations on them.

    Each state-changing operation is specified by a function from the old
    stores and the answers of the outside world (what `fetch` returns, the
    clock, which store calls fail, the id the record store assigns) to the
    new stores and the result; the methods of `Backend` perform the same
    steps in place, in the order the service performs them. */
module DesignService {
  import opened Outcomes
  import opened JsString
  import opened StorageUrl

  const MaxImageBytes: nat := 5 * 1024 * 1024
  const UnauthorizedCode := "storage/unauthorized"

  const SignInToUpload := "没有权限上传图片，请确保已登录"
  const UploadFailedPrefix := "上传图片失败，请重试: "
  const FetchFailedPrefix := "获取图片失败: "
  const TooLarge := "图片大小超过5MB限制"
  const NotAnImage := "文件类型必须是图片"
  const SaveFailed := "保存作品失败，请重试"
  const ListFailed := "获取作品列表失败，请重试"
  const DeleteFailed := "删除作品失败，请重试"

  datatype Blob = Blob(size: nat, contentType: string)

  /** A thrown error: its `code` ("" when it has none) and its `message`. */
  datatype Fault = Fault(code: string, message: string)

  /** What `fetch(url)` gives: a thrown error, or a response. */
  datatype Fetched =
    | FetchThrew(fault: Fault)
    | Response(ok: bool, status: nat, statusText: string, blob: Blob)

  datatype Design = Design(userId: string, prompt: string, imageUrl: string, createdAt: int)

  /** A design as the list returns it, paired with its record id. */
  datatype Entry = Entry(id: string, design: Design)

  datatype Stores = Stores(blobs: map<string, Blob>, records: map<string, Design>)

  /** The outside world during an upload or a save: the network, the two
      clock readings (path name, then record), the faults of `uploadBytes`,
      `getDownloadURL` and `addDoc`, and the id `addDoc` assigns. */
  datatype SaveEnv = SaveEnv(
    fetch: string -> Fetched,
    pathTime: nat,
    recordTime: int,
    put: Option<Fault>,
    link: Option<Fault>,
    insert: Option<Fault>,
    newId: string)

  /** The outside world during a delete: whether `getDoc`, `deleteObject`
      and `deleteDoc` succeed. */
  datatype DeleteEnv = DeleteEnv(readOk: bool, blobDeleteOk: bool, recordDeleteOk: bool)

  /** The message `uploadImageToStorage` rethrows a fault with. */
  function UploadError(f: Fault): string
  {
    if f.code == UnauthorizedCode then SignInToUpload else UploadFailedPrefix + f.message
  }

  /** The sign-in message is given exactly for an unauthorized fault: no
      re-wrapped message can be mistaken for it. */
  lemma UnauthorizedIsSignIn(f: Fault)
    ensures UploadError(f) == SignInToUpload <==> f.code == UnauthorizedCode
  {
    if f.code != UnauthorizedCode {
      assert UploadError(f)[0] == UploadFailedPrefix[0] != SignInToUpload[0];
    }
  }

  /** The checks on the fetched image, in their order: a thrown fetch, a
      response that is not ok, a blob over 5 MiB, a type that is not an image. */
  function Rejection(resp: Fetched): Option<Fault>
  {
    match resp
    case FetchThrew(f) => Some(f)
    case Response(ok, status, statusText, blob) =>
      if !ok then Some(Fault("", FetchFailedPrefix + Decimal(status) + " " + statusText))
      else if blob.size > MaxImageBytes then Some(Fault("", TooLarge))
      else if !StartsWith(blob.contentType, "image/") then Some(Fault("", NotAnImage))
      else None
  }

  /** `uploadImageToStorage(imageUrl, userId)` */
  function UploadEffect(st: Stores, endpoint: string, imageUrl: string, userId: string, env: SaveEnv)
    : (out: (Stores, Result<string>))
    ensures out.0.records == st.records
    ensures out.1.Ok? <==> Rejection(env.fetch(imageUrl)).None? && env.put.None? && env.link.None?
    ensures out.1.Ok? ==> out.1.value == DownloadUrl(endpoint, ImagePath(userId, env.pathTime))
    ensures Rejection(env.fetch(imageUrl)).Some? || env.put.Some? ==> out.0 == st
    ensures out.0 == st
         || out.0.blobs == st.blobs[ImagePath(userId, env.pathTime) := env.fetch(imageUrl).blob]
    ensures Rejection(env.fetch(imageUrl)).None? && env.put.None? ==>
              out.0.blobs == st.blobs[ImagePath(userId, env.pathTime) := env.fetch(imageUrl).blob]
    ensures Rejection(env.fetch(imageUrl)).Some? ==>
              out.1 == Err(UploadError(Rejection(env.fetch(imageUrl)).value))
    ensures env.fetch(imageUrl).Response? && Rejection(env.fetch(imageUrl)).Some? ==>
              out.1 == Err(UploadFailedPrefix + Rejection(env.fetch(imageUrl)).value.message)
    ensures Rejection(env.fetch(imageUrl)).None? && env.put.Some? ==> out.1 == Err(UploadError(env.put.value))
    ensures Rejection(env.fetch(imageUrl)).None? && env.put.None? && env.link.Some? ==>
              out.1 == Err(UploadError(env.link.value))
  {
    var resp := env.fetch(imageUrl);
    match Rejection(resp)
    case Some(f) => (st, Err(UploadError(f)))
    case None =>
      var path := ImagePath(userId, env.pathTime);
      if env.put.Some? then (st, Err(UploadError(env.put.value)))
      else
        var written := st.(blobs := st.blobs[path := resp.blob]);
        if env.link.Some? then (written, Err(UploadError(env.link.value)))
        else (written, Ok(DownloadUrl(endpoint, path)))
  }

  /** `saveDesign(userId, prompt, imageUrl)` */
  function SaveEffect(st: Stores, endpoint: string, userId: string, prompt: string, imageUrl: string, env: SaveEnv)
    : (out: (Stores, Result<string>))
    ensures out.0.blobs == UploadEffect(st, endpoint, imageUrl, userId, env).0.blobs
    ensures out.1.Ok? <==> UploadEffect(st, endpoint, imageUrl, userId, env).1.Ok? && env.insert.None?
    ensures out.1.Err? ==> out.1.message == SaveFailed && out.0.records == st.records
    ensures out.1.Ok? ==>
              && out.1.value == env.newId
              && out.0.records == st.records[env.newId :=
                   Design(userId, prompt, DownloadUrl(endpoint, ImagePath(userId, env.pathTime)), env.recordTime)]
  {
    var uploaded := UploadEffect(st, endpoint, imageUrl, userId, env);
    var st1 := uploaded.0;
    if uploaded.1.Err? then (st1, Err(SaveFailed))
    else if env.insert.Some? then (st1, Err(SaveFailed))
    else
      var design := Design(userId, prompt, uploaded.1.value, env.recordTime);
      (st1.(records := st1.records[env.newId := design]), Ok(env.newId))
  }

  /** `deleteDesign(designId)` */
  function DeleteEffect(st: Stores, id: string, env: DeleteEnv): (out: (Stores, Result<()>))
    ensures out.0.records == if out.1.Ok? then st.records - {id} else st.records
    ensures out.1.Err? ==> out.1.message == DeleteFailed
    ensures out.1.Ok? <==>
              && env.readOk && env.recordDeleteOk
              && (id in st.records && st.records[id].imageUrl != "" ==>
                    StoragePathOf(st.records[id].imageUrl).Some?)
    ensures out.0.blobs == st.blobs
         || (&& id in st.records && env.readOk && env.blobDeleteOk
             && StoragePathOf(st.records[id].imageUrl).Some?
             && out.0.blobs == st.blobs - {StoragePathOf(st.records[id].imageUrl).value})
    ensures id !in st.records ==> out.0.blobs == st.blobs
    ensures !env.blobDeleteOk ==> out.0.blobs == st.blobs
    ensures && env.readOk && env.blobDeleteOk && id in st.records && st.records[id].imageUrl != ""
            && StoragePathOf(st.records[id].imageUrl).Some? ==>
              out.0.blobs == st.blobs - {StoragePathOf(st.records[id].imageUrl).value}
  {
    if !env.readOk then (st, Err(DeleteFailed))
    else
      var cleaned :=
        if id in st.records && st.records[id].imageUrl != "" then
          match StoragePathOf(st.records[id].imageUrl)
          case None => None
          case Some(path) => Some(if env.blobDeleteOk then st.(blobs := st.blobs - {path}) else st)
        else Some(st);
      match cleaned
      case None => (st, Err(DeleteFailed))
      case Some(st1) =>
        if env.recordDeleteOk then (st1.(records := st1.records - {id}), Ok(()))
        else (st1, Err(DeleteFailed))
  }

  // ---------------------------------------------------------------------
  // Listing

  predicate Owned(e: Entry, records: map<string, Design>, userId: string)
  {
    e.id in records && records[e.id] == e.design && e.design.userId == userId
  }

  predicate DistinctIds(s: seq<Entry>)
  {
    forall i, j :: 0 <= i < j < |s| ==> s[i].id != s[j].id
  }

  predicate NewestFirst(s: seq<Entry>)
  {
    forall i, j :: 0 <= i < j < |s| ==> s[i].design.createdAt >= s[j].design.createdAt
  }

  /** `s` lists the designs of `userId` in `records`, each once, newest first. */
  predicate IsListing(s: seq<Entry>, records: map<string, Design>, userId: string)
  {
    && (forall i :: 0 <= i < |s| ==> Owned(s[i], records, userId))
    && (forall id :: id in records && records[id].userId == userId ==> Entry(id, records[id]) in s)
    && DistinctIds(s)
    && NewestFirst(s)
  }

  /** Putting in front of a newest-first list an entry at least as new as
      all of it keeps the list newest first. */
  lemma PrependNewest(x: Entry, s: seq<Entry>)
    requires NewestFirst(s)
    requires forall y :: y in s ==> y.design.createdAt <= x.design.createdAt
    ensures NewestFirst([x] + s)
  {
  }

  /** `designs.sort((a, b) => b.createdAt - a.createdAt)` on the array of
      query results: newest first, a rearrangement of what was there. */
  method SortNewestFirst(a: array<Entry>)
    modifies a
    ensures NewestFirst(a[..])
    ensures multiset(a[..]) == multiset(old(a[..]))
  {
    var i := 0;
    while i < a.Length
      invariant 0 <= i <= a.Length
      invariant NewestFirst(a[..i])
      invariant multiset(a[..]) == multiset(old(a[..]))
    {
      SinkEntry(a, i);
      i := i + 1;
    }
    assert a[..] == a[..a.Length];
  }

  /** One step of the sort: moves `a[i]` left past the entries older than
      it, so that the newest-first prefix grows by one. */
  method SinkEntry(a: array<Entry>, i: nat)
    requires i < a.Length && NewestFirst(a[..i])
    modifies a
    ensures NewestFirst(a[..i + 1])
    ensures multiset(a[..]) == multiset(old(a[..]))
  {
    var j: nat := i;
    SinkStart(a[..], i);
    while j > 0 && a[j - 1].design.createdAt < a[j].design.createdAt
      invariant j <= i
      invariant multiset(a[..]) == multiset(old(a[..]))
      invariant SortedApart(a[..], j, i) && KeyNewer(a[..], j, i)
    {
      SinkSwap(a[..], j, i);
      SwapWithPrevious(a, j);
      j := j - 1;
    }
    SinkStop(a[..], j, i);
  }

  /** Exchanges `a[k - 1]` and `a[k]`. */
  method SwapWithPrevious(a: array<Entry>, k: nat)
    requires 0 < k < a.Length
    modifies a
    ensures a[..] == old(a[..])[k - 1 := old(a[k])][k := old(a[k - 1])]
    ensures multiset(a[..]) == multiset(old(a[..]))
  {
    ghost var before := a[..];
    a[k - 1], a[k] := a[k], a[k - 1];
    assert a[..] == before[k - 1 := before[k]][k := before[k - 1]];
  }

  /** Up to index `i`, the entries other than the one at `j` are newest first. */
  predicate SortedApart(s: seq<Entry>, j: nat, i: nat)
    requires j <= i < |s|
  {
    forall p, q :: 0 <= p < q <= i && p != j && q != j ==> s[p].design.createdAt >= s[q].design.createdAt
  }

  /** The entry at `j` is newer than every entry after it up to `i`. */
  predicate KeyNewer(s: seq<Entry>, j: nat, i: nat)
    requires j <= i < |s|
  {
    forall q :: j < q <= i ==> s[j].design.createdAt > s[q].design.createdAt
  }

  lemma SinkStart(s: seq<Entry>, i: nat)
    requires i < |s| && NewestFirst(s[..i])
    ensures SortedApart(s, i, i) && KeyNewer(s, i, i)
  {
  }

  lemma SinkSwap(s: seq<Entry>, j: nat, i: nat)
    requires 0 < j <= i < |s| && SortedApart(s, j, i) && KeyNewer(s, j, i)
    requires s[j - 1].design.createdAt < s[j].design.createdAt
    ensures var t := s[j - 1 := s[j]][j := s[j - 1]];
            SortedApart(t, j - 1, i) && KeyNewer(t, j - 1, i)
  {
  }

  lemma SinkStop(s: seq<Entry>, j: nat, i: nat)
    requires j <= i < |s| && SortedApart(s, j, i) && KeyNewer(s, j, i)
    requires j == 0 || s[j - 1].design.createdAt >= s[j].design.createdAt
    ensures NewestFirst(s[..i + 1])
  {
  }

  lemma {:induction false} DistinctCountsOnce(s: seq<Entry>, x: Entry)
    requires DistinctIds(s)
    ensures multiset(s)[x] <= 1
  {
    if s != [] {
      assert s == [s[0]] + s[1..];
      assert DistinctIds(s[1..]) by {
        forall i, j | 0 <= i < j < |s[1..]| ensures s[1..][i].id != s[1..][j].id {
          assert s[1..][i] == s[i + 1] && s[1..][j] == s[j + 1];
        }
      }
      DistinctCountsOnce(s[1..], x);
      if x == s[0] {
        forall k | 0 <= k < |s[1..]| ensures s[1..][k] != x {
          assert s[1..][k] == s[k + 1] && s[k + 1].id != s[0].id;
        }
        assert x !in s[1..];
      }
    }
  }

  /** Rearranging a list keeps its ids distinct. */
  lemma DistinctAcrossPermutation(a: seq<Entry>, b: seq<Entry>)
    requires multiset(a) == multiset(b) && DistinctIds(a)
    ensures DistinctIds(b)
  {
    forall i, j | 0 <= i < j < |b| ensures b[i].id != b[j].id {
      if b[i] == b[j] {
        var x := b[i];
        assert b == b[..j] + b[j..];
        assert x in b[..j] && x in b[j..] by {
          assert b[..j][i] == x && b[j..][0] == x;
        }
        assert multiset(b)[x] == multiset(b[..j])[x] + multiset(b[j..])[x];
        DistinctCountsOnce(a, x);
      } else {
        assert b[i] in multiset(a) && b[j] in multiset(a);
        var p :| 0 <= p < |a| && a[p] == b[i];
        var q :| 0 <= q < |a| && a[q] == b[j];
        assert p != q;
        if p < q { assert a[p].id != a[q].id; } else { assert a[q].id != a[p].id; }
      }
    }
  }

  /** The sorted query results list the user's designs. */
  lemma SortedSnapshotIsListing(snapshot: seq<Entry>, designs: seq<Entry>,
                                records: map<string, Design>, userId: string)
    requires forall i :: 0 <= i < |snapshot| ==> Owned(snapshot[i], records, userId)
    requires forall id :: id in records && records[id].userId == userId ==> Entry(id, records[id]) in snapshot
    requires DistinctIds(snapshot)
    requires multiset(designs) == multiset(snapshot) && NewestFirst(designs)
    ensures IsListing(designs, records, userId)
  {
    DistinctAcrossPermutation(snapshot, designs);
    forall i | 0 <= i < |designs| ensures Owned(designs[i], records, userId) {
      assert designs[i] in multiset(snapshot);
    }
    forall id | id in records && records[id].userId == userId
      ensures Entry(id, records[id]) in designs
    {
      assert Entry(id, records[id]) in multiset(designs);
    }
  }

  // ---------------------------------------------------------------------
  // Stateful service

  /** The two external stores, updated in place by the service. */
  class Backend {
    /** The bucket's address, under which download URLs are issued. */
    const endpoint: string
    var blobs: map<string, Blob>
    var records: map<string, Design>

    constructor (endpoint: string)
      ensures this.endpoint == endpoint && blobs == map[] && records == map[]
    {
      this.endpoint := endpoint;
      blobs := map[];
      records := map[];
    }

    function State(): Stores
      reads this
    {
      Stores(blobs, records)
    }

    method UploadImageToStorage(imageUrl: string, userId: string, env: SaveEnv) returns (r: Result<string>)
      modifies this
      ensures (State(), r) == UploadEffect(old(State()), endpoint, imageUrl, userId, env)
    {
      var response := env.fetch(imageUrl);
      var rejected := Rejection(response);
      if rejected.Some? {
        return Err(UploadError(rejected.value));
      }
      var fileName := ImagePath(userId, env.pathTime);
      if env.put.Some? {
        return Err(UploadError(env.put.value));
      }
      blobs := blobs[fileName := response.blob];
      if env.link.Some? {
        return Err(UploadError(env.link.value));
      }
      r := Ok(DownloadUrl(endpoint, fileName));
    }

    method SaveDesign(userId: string, prompt: string, imageUrl: string, env: SaveEnv) returns (r: Result<string>)
      modifies this
      ensures (State(), r) == SaveEffect(old(State()), endpoint, userId, prompt, imageUrl, env)
    {
      var permanentImageUrl := UploadImageToStorage(imageUrl, userId, env);
      if permanentImageUrl.Err? {
        return Err(SaveFailed);
      }
      var design := Design(userId, prompt, permanentImageUrl.value, env.recordTime);
      if env.insert.Some? {
        return Err(SaveFailed);
      }
      records := records[env.newId := design];
      r := Ok(env.newId);
    }

    /** `getUserDesigns(userId)`; the store answers the query in an order of
        its own, which the service then sorts. */
    method GetUserDesigns(userId: string, queryOk: bool) returns (r: Result<seq<Entry>>)
      ensures r.Err? <==> !queryOk
      ensures r.Err? ==> r.message == ListFailed
      ensures r.Ok? ==> IsListing(r.value, records, userId)
    {
      if !queryOk {
        return Err(ListFailed);
      }
      var pending := records.Keys;
      var snapshot: seq<Entry> := [];
      while pending != {}
        invariant pending <= records.Keys
        invariant forall i :: 0 <= i < |snapshot| ==>
                    Owned(snapshot[i], records, userId) && snapshot[i].id !in pending
        invariant forall id :: id in records && id !in pending && records[id].userId == userId ==>
                    Entry(id, records[id]) in snapshot
        invariant DistinctIds(snapshot)
        decreases pending
      {
        var id :| id in pending;
        if records[id].userId == userId {
          snapshot := snapshot + [Entry(id, records[id])];
        }
        pending := pending - {id};
      }
      var sorted := new Entry[|snapshot|](i requires 0 <= i < |snapshot| => snapshot[i]);
      assert sorted[..] == snapshot;
      SortNewestFirst(sorted);
      var designs := sorted[..];
      SortedSnapshotIsListing(snapshot, designs, records, userId);
      r := Ok(designs);
    }

    method DeleteDesign(designId: string, env: DeleteEnv) returns (r: Result<()>)
      modifies this
      ensures (State(), r) == DeleteEffect(old(State()), designId, env)
    {
      if !env.readOk {
        return Err(DeleteFailed);
      }
      if designId in records {
        var designData := records[designId];
        if designData.imageUrl != "" {
          var storagePath := StoragePathOf(designData.imageUrl);
          if storagePath.None? {
            return Err(DeleteFailed);
          }
          if env.blobDeleteOk {
            blobs := blobs - {storagePath.value};
          }
          // a failed blob delete is swallowed; the record delete proceeds
        }
      }
      if !env.recordDeleteOk {
        return Err(DeleteFailed);
      }
      records := records - {designId};
      r := Ok(());
    }
  }

  // ---------------------------------------------------------------------
  // Properties across operations

  /** Exactly 5 MiB of image passes the checks; one byte more is refused. */
  lemma SizeBoundary(status: nat, statusText: string, contentType: string)
    requires StartsWith(contentType, "image/")
    ensures Rejection(Response(true, status, statusText, Blob(MaxImageBytes, contentType))).None?
    ensures Rejection(Response(true, status, statusText, Blob(MaxImageBytes + 1, contentType)))
            == Some(Fault("", TooLarge))
  {
  }

  /** Deleting an id twice succeeds both times when the stores answer,
      and the second delete changes nothing. */
  lemma DeleteTwice(st: Stores, id: string, env: DeleteEnv)
    requires DeleteEffect(st, id, env).1.Ok?
    ensures var st1 := DeleteEffect(st, id, env).0;
            DeleteEffect(st1, id, DeleteEnv(true, true, true)) == (st1, Ok(()))
  {
    var st1 := DeleteEffect(st, id, env).0;
    assert st1.records - {id} == st1.records;
  }

  /** A saved design shows up in its owner's listing: a list that includes
      it exists and any listing contains it with the durable URL. */
  lemma SavedDesignIsListed(st: Stores, endpoint: string, userId: string, prompt: string,
                            imageUrl: string, env: SaveEnv, s: seq<Entry>)
    requires SaveEffect(st, endpoint, userId, prompt, imageUrl, env).1.Ok?
    requires IsListing(s, SaveEffect(st, endpoint, userId, prompt, imageUrl, env).0.records, userId)
    ensures Entry(env.newId, Design(userId, prompt,
                DownloadUrl(endpoint, ImagePath(userId, env.pathTime)), env.recordTime)) in s
  {
    var records := SaveEffect(st, endpoint, userId, prompt, imageUrl, env).0.records;
    assert env.newId in records && records[env.newId].userId == userId;
  }

  /** Saving and then deleting the new design, with every store call
      succeeding, leaves the records as they were and removes exactly the
      uploaded blob. */
  lemma SaveThenDelete(st: Stores, endpoint: string, userId: string, prompt: string,
                       imageUrl: string, env: SaveEnv)
    requires EndpointOk(endpoint)
    requires env.newId !in st.records
    requires SaveEffect(st, endpoint, userId, prompt, imageUrl, env).1.Ok?
    ensures var saved := SaveEffect(st, endpoint, userId, prompt, imageUrl, env).0;
            var deleted := DeleteEffect(saved, env.newId, DeleteEnv(true, true, true));
            && deleted.1 == Ok(())
            && deleted.0.records == st.records
            && deleted.0.blobs == st.blobs - {ImagePath(userId, env.pathTime)}
  {
    var path := ImagePath(userId, env.pathTime);
    var saved := SaveEffect(st, endpoint, userId, prompt, imageUrl, env).0;
    PathOfDownloadUrl(endpoint, path);
    assert saved.records[env.newId].imageUrl == DownloadUrl(endpoint, path);
    assert DownloadUrl(endpoint, path) != "";
    var deleted := DeleteEffect(saved, env.newId, DeleteEnv(true, true, true));
    assert deleted.0.records == st.records;
    assert saved.blobs == st.blobs[path := env.fetch(imageUrl).blob];
    assert deleted.0.blobs == saved.blobs - {path};
  }
}
