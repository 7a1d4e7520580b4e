/** The "my designs" page: on a change of the signed-in user it loads that
    user's designs (or sends a signed-out visitor to the login page), and
    on a confirmed delete it removes the design from the stores and from
    the list it shows. */
module MyDesigns {
  import opened Outcomes
  import opened DesignService
  import ImageGenerator

  /** `s.filter(design => design.id !== id)` */
  function WithoutId(s: seq<Entry>, id: string): (r: seq<Entry>)
    ensures |r| <= |s|
    ensures forall x :: x in r <==> x in s && x.id != id
  {
    if s == [] then []
    else if s[0].id == id then WithoutId(s[1..], id)
    else [s[0]] + WithoutId(s[1..], id)
  }

  /** Filtering distributes over concatenation: the kept entries stay in
      their relative order. */
  lemma {:induction false} WithoutIdAppend(a: seq<Entry>, b: seq<Entry>, id: string)
    ensures WithoutId(a + b, id) == WithoutId(a, id) + WithoutId(b, id)
  {
    if a == [] {
      assert a + b == b;
    } else {
      assert (a + b)[0] == a[0] && (a + b)[1..] == a[1..] + b;
      WithoutIdAppend(a[1..], b, id);
    }
  }

  /** Filtering keeps every entry with another id as often as it occurs,
      and drops every entry with that id. */
  lemma {:induction false} WithoutIdCounts(s: seq<Entry>, id: string, x: Entry)
    ensures multiset(WithoutId(s, id))[x] == if x.id == id then 0 else multiset(s)[x]
  {
    if s != [] {
      var rest := WithoutId(s[1..], id);
      WithoutIdCounts(s[1..], id, x);
      assert multiset(s) == multiset{s[0]} + multiset(s[1..]) by {
        assert s == [s[0]] + s[1..];
      }
      if s[0].id != id {
        assert multiset([s[0]] + rest) == multiset{s[0]} + multiset(rest);
      }
    }
  }

  /** Filtering an id nobody in the list has changes nothing. */
  lemma {:induction false} WithoutAbsentId(s: seq<Entry>, id: string)
    requires forall i :: 0 <= i < |s| ==> s[i].id != id
    ensures WithoutId(s, id) == s
  {
    if s != [] {
      WithoutAbsentId(s[1..], id);
      assert s == [s[0]] + s[1..];
    }
  }

  /** Filtering keeps a list newest first and its ids distinct. */
  lemma {:induction false} WithoutIdKeepsOrder(s: seq<Entry>, id: string)
    requires NewestFirst(s) && DistinctIds(s)
    ensures NewestFirst(WithoutId(s, id)) && DistinctIds(WithoutId(s, id))
  {
    if s != [] {
      TailKeepsOrder(s);
      WithoutIdKeepsOrder(s[1..], id);
      if s[0].id != id {
        var rest := WithoutId(s[1..], id);
        HeadAboveTail(s, rest);
        PrependNewest(s[0], rest);
        PrependDistinct(s[0], rest);
      }
    }
  }

  lemma TailKeepsOrder(s: seq<Entry>)
    requires s != [] && NewestFirst(s) && DistinctIds(s)
    ensures NewestFirst(s[1..]) && DistinctIds(s[1..])
  {
  }

  /** Every entry of a list drawn from the tail is no newer than the head
      and has another id. */
  lemma HeadAboveTail(s: seq<Entry>, rest: seq<Entry>)
    requires s != [] && NewestFirst(s) && DistinctIds(s)
    requires forall y :: y in rest ==> y in s[1..]
    ensures forall y :: y in rest ==> y.design.createdAt <= s[0].design.createdAt && y.id != s[0].id
  {
  }

  lemma PrependDistinct(x: Entry, rest: seq<Entry>)
    requires DistinctIds(rest)
    requires forall y :: y in rest ==> y.id != x.id
    ensures DistinctIds([x] + rest)
  {
  }

  /** A listing of a user's designs, filtered by an id, lists that user's
      designs once the record with that id is gone. */
  lemma DeleteKeepsListing(s: seq<Entry>, records: map<string, Design>, userId: string, id: string)
    requires IsListing(s, records, userId)
    ensures IsListing(WithoutId(s, id), records - {id}, userId)
  {
    var r := WithoutId(s, id);
    WithoutIdKeepsOrder(s, id);
    forall i | 0 <= i < |r| ensures Owned(r[i], records - {id}, userId) {
      assert r[i] in r;
      var k :| 0 <= k < |s| && s[k] == r[i];
      assert Owned(s[k], records, userId);
    }
  }

  /** The page's state: the designs it shows, the loading flag, the error
      it shows and where the router was sent. */
  class MyDesignsPage {
    var designs: seq<Entry>
    var loading: bool
    var error: Option<string>
    var route: Option<string>

    constructor ()
      ensures designs == [] && loading && error == None && route == None
    {
      designs := [];
      loading := true;
      error := None;
      route := None;
    }

    /** The `onAuthStateChanged` callback for `user` (None when signed out);
        `queryOk` says whether the store answers the listing query. */
    method OnAuthStateChanged(user: Option<string>, store: Backend, queryOk: bool)
      modifies this
      ensures user.None? ==>
                && route == Some(ImageGenerator.LoginRoute)
                && designs == old(designs) && loading == old(loading) && error == old(error)
      ensures user.Some? ==>
                && !loading && route == old(route)
                && (queryOk ==> IsListing(designs, store.records, user.value) && error == old(error))
                && (!queryOk ==> designs == old(designs) && error == Some(ListFailed))
    {
      if user.None? {
        route := Some(ImageGenerator.LoginRoute);
        return;
      }
      var userDesigns := store.GetUserDesigns(user.value, queryOk);
      if userDesigns.Ok? {
        designs := userDesigns.value;
      } else {
        error := Some(userDesigns.message);
      }
      loading := false;
    }

    /** `handleDelete(designId)`; `confirmed` is the answer to the
        confirmation dialog. A page that listed the designs of `owner`
        still lists them after a delete that succeeds. */
    method HandleDelete(designId: string, confirmed: bool, store: Backend, env: DeleteEnv, ghost owner: string)
      modifies this, store
      ensures !confirmed ==> designs == old(designs) && store.State() == old(store.State())
      ensures confirmed ==>
                var deleted := DeleteEffect(old(store.State()), designId, env);
                && store.State() == deleted.0
                && designs == (if deleted.1.Ok? then WithoutId(old(designs), designId) else old(designs))
      ensures loading == old(loading) && error == old(error) && route == old(route)
      ensures old(IsListing(designs, store.records, owner)) ==> IsListing(designs, store.records, owner)
    {
      if !confirmed {
        return;
      }
      var r := store.DeleteDesign(designId, env);
      if r.Ok? {
        ghost var before := designs;
        designs := WithoutId(designs, designId);
        if IsListing(before, old(store.records), owner) {
          DeleteKeepsListing(before, old(store.records), owner, designId);
        }
      }
    }
  }
}
