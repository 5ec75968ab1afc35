/**
  The user lists of ShowListController over the stored `show_lists` rows.
  Every operation on one list first looks it up by id AND owner; a list of
  another user is as absent as a list that does not exist. Inside a list a
  show is identified by its TMDB id alone. Validation by the framework is an
  input: a request that fails it is `None`.
 */
module ShowLists {
  import opened Wrappers
  import opened ShowList

  datatype ListRecord = ListRecord(id: int, userId: int, title: string, description: Option<string>, shows: seq<ShowData>)

  datatype Reply = Reply(status: int, message: string)

  const NotFound := Reply(404, "List not found")
  const Invalid := Reply(422, "")

  /** The index of the list with this id owned by this user (`where id, where user_id, first`). */
  function FindOwned(lists: seq<ListRecord>, listId: int, userId: int): (r: Option<nat>)
    ensures r.Some? ==> r.value < |lists| && lists[r.value].id == listId && lists[r.value].userId == userId
    ensures r.None? <==> forall k :: 0 <= k < |lists| ==> !(lists[k].id == listId && lists[k].userId == userId)
  {
    if lists == [] then None
    else if lists[0].id == listId && lists[0].userId == userId then Some(0)
    else
      var r := FindOwned(lists[1..], listId, userId);
      assert forall k :: 1 <= k < |lists| ==> lists[k] == lists[1..][k - 1];
      if r.Some? then Some(r.value + 1) else None
  }

  predicate HasTmdbId(shows: seq<ShowData>, tmdbId: string) {
    exists k :: 0 <= k < |shows| && shows[k].tmdbId == tmdbId
  }

  /** The shows after an add: unchanged when the id is present whatever its type, else the
      formatted request appended. */
  function WithShow(shows: seq<ShowData>, request: ShowRequest): (r: seq<ShowData>)
    ensures HasTmdbId(r, request.tmdbId)
    ensures HasTmdbId(shows, request.tmdbId) ==> r == shows
    ensures !HasTmdbId(shows, request.tmdbId) ==> r == shows + [FormatShowData(request)]
  {
    if HasTmdbId(shows, request.tmdbId) then shows
    else
      var r := shows + [FormatShowData(request)];
      assert r[|shows|].tmdbId == request.tmdbId;
      r
  }

  /** array_filter on the id, then array_values. */
  function WithoutShow(shows: seq<ShowData>, tmdbId: string): (r: seq<ShowData>)
    ensures |r| <= |shows|
    ensures !HasTmdbId(r, tmdbId)
    ensures forall k :: 0 <= k < |r| ==> r[k] in shows
    ensures forall k :: 0 <= k < |shows| && shows[k].tmdbId != tmdbId ==> shows[k] in r
  {
    if shows == [] then []
    else
      var rest := WithoutShow(shows[1..], tmdbId);
      assert forall k :: 1 <= k < |shows| ==> shows[k] == shows[1..][k - 1];
      if shows[0].tmdbId != tmdbId then [shows[0]] + rest else rest
  }

  /** Removal keeps the other shows in their order. */
  lemma {:induction false} WithoutShowConcat(a: seq<ShowData>, b: seq<ShowData>, tmdbId: string)
    ensures WithoutShow(a + b, tmdbId) == WithoutShow(a, tmdbId) + WithoutShow(b, tmdbId)
  {
    if a == [] {
      assert a + b == b;
    } else {
      assert (a + b)[0] == a[0] && (a + b)[1..] == a[1..] + b;
      WithoutShowConcat(a[1..], b, tmdbId);
    }
  }

  /** Removing a show that was just added restores the list. */
  lemma {:induction false} RemoveUndoesAdd(shows: seq<ShowData>, request: ShowRequest)
    requires !HasTmdbId(shows, request.tmdbId)
    ensures WithoutShow(WithShow(shows, request), request.tmdbId) == shows
  {
    WithoutShowConcat(shows, [FormatShowData(request)], request.tmdbId);
    assert [FormatShowData(request)][1..] == [];
    WithoutAbsent(shows, request.tmdbId);
  }

  lemma {:induction false} WithoutAbsent(shows: seq<ShowData>, tmdbId: string)
    requires !HasTmdbId(shows, tmdbId)
    ensures WithoutShow(shows, tmdbId) == shows
  {
    if shows != [] {
      assert !HasTmdbId(shows[1..], tmdbId) by {
        forall k | 0 <= k < |shows[1..]| ensures shows[1..][k].tmdbId != tmdbId {
          assert shows[1..][k] == shows[k + 1];
        }
      }
      assert shows[0].tmdbId != tmdbId;
      WithoutAbsent(shows[1..], tmdbId);
    }
  }

  /** getUserLists: the caller's lists, in stored order. */
  function ListsOf(lists: seq<ListRecord>, userId: int): (r: seq<ListRecord>)
    ensures forall k :: 0 <= k < |r| ==> r[k].userId == userId && r[k] in lists
    ensures forall k :: 0 <= k < |lists| && lists[k].userId == userId ==> lists[k] in r
  {
    if lists == [] then []
    else
      var rest := ListsOf(lists[1..], userId);
      assert forall k :: 1 <= k < |lists| ==> lists[k] == lists[1..][k - 1];
      if lists[0].userId == userId then [lists[0]] + rest else rest
  }

  /** The list with entry `i` removed. */
  function RemoveAt(lists: seq<ListRecord>, i: nat): (r: seq<ListRecord>)
    requires i < |lists|
    ensures |r| == |lists| - 1
    ensures forall k :: 0 <= k < |lists| && k != i ==> lists[k] in r
    ensures forall k :: 0 <= k < |r| ==> r[k] == (if k < i then lists[k] else lists[k + 1])
  {
    lists[..i] + lists[i + 1..]
  }

  /** The list at position `k` after removing position `i`. */
  lemma RemoveAtIndex(lists: seq<ListRecord>, i: nat, k: int)
    requires i < |lists| && 0 <= k < |lists| - 1
    ensures k < i ==> RemoveAt(lists, i)[k] == lists[k]
    ensures k >= i ==> RemoveAt(lists, i)[k] == lists[k + 1]
  {
  }

  /** With unique ids, removing the list at `i` removes its id, keeps the others unique and
      keeps every id below the same bound. */
  lemma RemoveAtDropsId(lists: seq<ListRecord>, i: nat, bound: int)
    requires i < |lists|
    requires forall k, m :: 0 <= k < m < |lists| ==> lists[k].id != lists[m].id
    requires forall k :: 0 <= k < |lists| ==> lists[k].id < bound
    ensures var r := RemoveAt(lists, i);
      && (forall k :: 0 <= k < |r| ==> r[k].id != lists[i].id && r[k].id < bound)
      && (forall k, m :: 0 <= k < m < |r| ==> r[k].id != r[m].id)
  {
    var r := RemoveAt(lists, i);
    forall k, m | 0 <= k < m < |r|
      ensures r[k].id != r[m].id
    {
      RemoveAtIndex(lists, i, k);
      RemoveAtIndex(lists, i, m);
    }
    forall k | 0 <= k < |r|
      ensures r[k].id != lists[i].id && r[k].id < bound
    {
      RemoveAtIndex(lists, i, k);
    }
  }

  /** Deleting one's own list never takes away another user's lists. */
  lemma DeleteKeepsOtherUsers(lists: seq<ListRecord>, listId: int, userId: int, other: int)
    requires FindOwned(lists, listId, userId).Some? && other != userId
    ensures ListsOf(RemoveAt(lists, FindOwned(lists, listId, userId).value), other) == ListsOf(lists, other)
  {
    var i := FindOwned(lists, listId, userId).value;
    assert lists == lists[..i] + ([lists[i]] + lists[i + 1..]);
    ListsOfSkip(lists[..i], lists[i], lists[i + 1..], other);
  }

  lemma ListsOfSkip(a: seq<ListRecord>, x: ListRecord, b: seq<ListRecord>, other: int)
    requires x.userId != other
    ensures ListsOf(a + ([x] + b), other) == ListsOf(a + b, other)
  {
    ListsOfConcat(a, [x] + b, other);
    ListsOfConcat(a, b, other);
    assert ([x] + b)[1..] == b;
  }

  lemma {:induction false} ListsOfConcat(a: seq<ListRecord>, b: seq<ListRecord>, userId: int)
    ensures ListsOf(a + b, userId) == ListsOf(a, userId) + ListsOf(b, userId)
  {
    if a == [] {
      assert a + b == b;
    } else {
      assert (a + b)[0] == a[0] && (a + b)[1..] == a[1..] + b;
      ListsOfConcat(a[1..], b, userId);
    }
  }

  /** The stored lists, with the next id the store hands out. */
  class ShowListStore {
    var lists: seq<ListRecord>
    var nextId: int

    /** Ids are unique and below the next id. This is what makes GetList's answer the only list
        with its id and lets DeleteList promise that no list with the id remains; createList's
        auto-increment id keeps it. */
    predicate Valid()
      reads this
    {
      && (forall k :: 0 <= k < |lists| ==> lists[k].id < nextId)
      && (forall k, m :: 0 <= k < m < |lists| ==> lists[k].id != lists[m].id)
    }

    constructor ()
      ensures Valid() && lists == [] && nextId == 1
    {
      lists := [];
      nextId := 1;
    }

    /** createList: a new list owned by the caller, with no shows. */
    method CreateList(userId: int, request: Option<(string, Option<string>)>) returns (reply: Reply, created: Option<ListRecord>)
      requires Valid()
      modifies this
      ensures Valid()
      ensures request.None? ==> reply == Invalid && created.None? && lists == old(lists) && nextId == old(nextId)
      ensures request.Some? ==>
        && reply == Reply(201, "List created successfully")
        && created == Some(ListRecord(old(nextId), userId, request.value.0, request.value.1, []))
        && lists == old(lists) + [created.value]
        && nextId == old(nextId) + 1
    {
      if request.None? {
        return Invalid, None;
      }
      var list := ListRecord(nextId, userId, request.value.0, request.value.1, []);
      lists := lists + [list];
      nextId := nextId + 1;
      return Reply(201, "List created successfully"), Some(list);
    }

    /** addShowToList: validation, then the owned-list lookup, then the id scan with its flag.
        A 201 answer also carries the show just added, the new last show of the list. */
    method AddShowToList(userId: int, listId: int, request: Option<ShowRequest>) returns (reply: Reply, added: Option<ShowData>)
      requires Valid()
      modifies this
      ensures Valid() && nextId == old(nextId)
      ensures added.Some? <==> reply.status == 201
      ensures added.Some? ==> request.Some? && added.value == FormatShowData(request.value)
      ensures added.Some? ==> exists i :: 0 <= i < |lists| && lists[i].id == listId && lists[i].userId == userId
                                         && |lists[i].shows| > 0 && lists[i].shows[|lists[i].shows| - 1] == added.value
      ensures request.None? ==> reply == Invalid && lists == old(lists)
      ensures request.Some? && FindOwned(old(lists), listId, userId).None? ==>
        reply == Reply(404, "List not found or you do not have permission") && lists == old(lists)
      ensures request.Some? && FindOwned(old(lists), listId, userId).Some? ==>
        var i := FindOwned(old(lists), listId, userId).value;
        var shows := old(lists)[i].shows;
        && reply == (if HasTmdbId(shows, request.value.tmdbId) then Reply(200, "Show is already in this list")
                     else Reply(201, "Show added to list successfully"))
        && lists == old(lists)[i := old(lists)[i].(shows := WithShow(shows, request.value))]
    {
      if request.None? {
        return Invalid, None;
      }
      var req := request.value;
      var index := FindOwned(lists, listId, userId);
      if index.None? {
        return Reply(404, "List not found or you do not have permission"), None;
      }
      var i := index.value;
      var shows := lists[i].shows;
      var found := false;
      for j := 0 to |shows|
        invariant !found ==> forall k :: 0 <= k < j ==> shows[k].tmdbId != req.tmdbId
        invariant found ==> HasTmdbId(shows, req.tmdbId)
      {
        if shows[j].tmdbId == req.tmdbId {
          found := true;
          break;
        }
      }
      if found {
        return Reply(200, "Show is already in this list"), None;
      }
      var show := FormatShowData(req);
      lists := lists[i := lists[i].(shows := shows + [show])];
      assert lists[i].shows[|lists[i].shows| - 1] == show;
      return Reply(201, "Show added to list successfully"), Some(show);
    }

    /** removeShowFromList: every show with the id goes; no other list changes. */
    method RemoveShowFromList(userId: int, listId: int, tmdbId: string) returns (reply: Reply)
      requires Valid()
      modifies this
      ensures Valid() && nextId == old(nextId)
      ensures FindOwned(old(lists), listId, userId).None? ==> reply == NotFound && lists == old(lists)
      ensures FindOwned(old(lists), listId, userId).Some? ==>
        var i := FindOwned(old(lists), listId, userId).value;
        && reply == Reply(200, "Show removed from list")
        && lists == old(lists)[i := old(lists)[i].(shows := WithoutShow(old(lists)[i].shows, tmdbId))]
    {
      var index := FindOwned(lists, listId, userId);
      if index.None? {
        return NotFound;
      }
      var i := index.value;
      lists := lists[i := lists[i].(shows := WithoutShow(lists[i].shows, tmdbId))];
      return Reply(200, "Show removed from list");
    }

    /** deleteList: only the caller's list with that id goes. */
    method DeleteList(userId: int, listId: int) returns (reply: Reply)
      requires Valid()
      modifies this
      ensures Valid() && nextId == old(nextId)
      ensures FindOwned(old(lists), listId, userId).None? ==> reply == NotFound && lists == old(lists)
      ensures FindOwned(old(lists), listId, userId).Some? ==>
        && reply == Reply(200, "List deleted successfully")
        && lists == RemoveAt(old(lists), FindOwned(old(lists), listId, userId).value)
        && forall k :: 0 <= k < |lists| ==> lists[k].id != listId
    {
      var index := FindOwned(lists, listId, userId);
      if index.None? {
        return NotFound;
      }
      RemoveAtDropsId(lists, index.value, nextId);
      lists := RemoveAt(lists, index.value);
      return Reply(200, "List deleted successfully");
    }

    /** getUserLists. */
    function UserLists(userId: int): (r: seq<ListRecord>)
      reads this
      ensures forall k :: 0 <= k < |r| ==> r[k].userId == userId
    {
      ListsOf(lists, userId)
    }

    /** getList: the caller's list, or none. */
    function GetList(userId: int, listId: int): (r: Option<ListRecord>)
      reads this
      ensures r.Some? ==> r.value in lists && r.value.id == listId && r.value.userId == userId
      ensures r.None? ==> forall k :: 0 <= k < |lists| ==> !(lists[k].id == listId && lists[k].userId == userId)
      ensures Valid() && r.Some? ==> forall k :: 0 <= k < |lists| && lists[k].id == listId ==> lists[k] == r.value
    {
      var i := FindOwned(lists, listId, userId);
      if i.Some? then Some(lists[i.value]) else None
    }
  }
}
