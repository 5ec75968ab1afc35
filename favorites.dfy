/**
  A user's favourites as ShowController keeps them: a JSON list of show data
  stored on the user, null until the first write. A show is identified there
  by its TMDB id together with its type, so a movie and a series may share an
  id. Validation by the framework is an input: a request that fails it is
  `None`.
 */
module Favorites {
  import opened Wrappers
  import opened Text
  import opened ShowList

  /** The favourite is the show with this id and type. */
  predicate IsPair(show: ShowData, tmdbId: string, showType: string) {
    show.tmdbId == tmdbId && show.showType == showType
  }

  predicate HasPair(favorites: seq<ShowData>, tmdbId: string, showType: string) {
    exists k :: 0 <= k < |favorites| && IsPair(favorites[k], tmdbId, showType)
  }

  /** The favourites after an add: unchanged when the pair is present, else the formatted request
      appended at the end. */
  function WithFavorite(favorites: seq<ShowData>, request: ShowRequest): (r: seq<ShowData>)
    ensures HasPair(r, request.tmdbId, request.showType)
    ensures HasPair(favorites, request.tmdbId, request.showType) ==> r == favorites
    ensures !HasPair(favorites, request.tmdbId, request.showType) ==> r == favorites + [FormatShowData(request)]
  {
    if HasPair(favorites, request.tmdbId, request.showType) then favorites
    else
      var r := favorites + [FormatShowData(request)];
      assert IsPair(r[|favorites|], request.tmdbId, request.showType);
      r
  }

  /** Adding the same show twice is adding it once. */
  lemma AddTwiceIsAddOnce(favorites: seq<ShowData>, request: ShowRequest)
    ensures WithFavorite(WithFavorite(favorites, request), request) == WithFavorite(favorites, request)
  {
  }

  /** A stored favourite of the other type with the same id does not block an add. */
  lemma OtherTypeIsNoDuplicate(show: ShowData, request: ShowRequest)
    requires show.tmdbId == request.tmdbId && show.showType != request.showType
    ensures WithFavorite([show], request) == [show, FormatShowData(request)]
  {
    assert !IsPair([show][0], request.tmdbId, request.showType);
  }

  /** Whether removal keeps a favourite: with a truthy type query only the exact pair goes,
      without one every entry with the id goes. */
  predicate Survives(show: ShowData, tmdbId: string, typeQuery: Option<string>) {
    if OptTruthy(typeQuery) then !IsPair(show, tmdbId, typeQuery.value) else show.tmdbId != tmdbId
  }

  /** array_filter followed by array_values: the survivors, in their order, reindexed. */
  function Remaining(favorites: seq<ShowData>, tmdbId: string, typeQuery: Option<string>): seq<ShowData> {
    if favorites == [] then []
    else
      var rest := Remaining(favorites[1..], tmdbId, typeQuery);
      if Survives(favorites[0], tmdbId, typeQuery) then [favorites[0]] + rest else rest
  }

  /** Removal keeps exactly the survivors: no more entries than before, each one surviving and
      taken from the list, and every surviving entry kept. */
  lemma {:induction false} RemainingKeepsSurvivors(favorites: seq<ShowData>, tmdbId: string, typeQuery: Option<string>)
    ensures var r := Remaining(favorites, tmdbId, typeQuery);
      && |r| <= |favorites|
      && (forall k :: 0 <= k < |r| ==> Survives(r[k], tmdbId, typeQuery) && r[k] in favorites)
      && (forall k :: 0 <= k < |favorites| && Survives(favorites[k], tmdbId, typeQuery) ==> favorites[k] in r)
  {
    if favorites != [] {
      RemainingKeepsSurvivors(favorites[1..], tmdbId, typeQuery);
      assert forall k :: 1 <= k < |favorites| ==> favorites[k] == favorites[1..][k - 1];
    }
  }

  /** Removal works entry by entry, so survivors keep their relative order. */
  lemma {:induction false} RemainingConcat(a: seq<ShowData>, b: seq<ShowData>, tmdbId: string, typeQuery: Option<string>)
    ensures Remaining(a + b, tmdbId, typeQuery) == Remaining(a, tmdbId, typeQuery) + Remaining(b, tmdbId, typeQuery)
  {
    if a == [] {
      assert a + b == b;
    } else {
      var ab := a + b;
      assert ab[0] == a[0] && ab[1..] == a[1..] + b;
      RemainingConcat(a[1..], b, tmdbId, typeQuery);
    }
  }

  /** Removing what is not there changes nothing. */
  lemma {:induction false} RemoveAbsentIsIdentity(favorites: seq<ShowData>, tmdbId: string, typeQuery: Option<string>)
    requires forall k :: 0 <= k < |favorites| ==> Survives(favorites[k], tmdbId, typeQuery)
    ensures Remaining(favorites, tmdbId, typeQuery) == favorites
  {
    if favorites != [] {
      assert forall k :: 1 <= k < |favorites| ==> favorites[k] == favorites[1..][k - 1];
      RemoveAbsentIsIdentity(favorites[1..], tmdbId, typeQuery);
    }
  }

  /** A typed removal after an add of that pair takes away exactly the added entry. */
  lemma RemoveUndoesAdd(favorites: seq<ShowData>, request: ShowRequest)
    requires !HasPair(favorites, request.tmdbId, request.showType)
    requires PhpTruthy(request.showType)
    ensures Remaining(WithFavorite(favorites, request), request.tmdbId, Some(request.showType)) == favorites
  {
    forall k | 0 <= k < |favorites| ensures Survives(favorites[k], request.tmdbId, Some(request.showType)) {
    }
    RemoveAbsentIsIdentity(favorites, request.tmdbId, Some(request.showType));
    RemainingConcat(favorites, [FormatShowData(request)], request.tmdbId, Some(request.showType));
    assert [FormatShowData(request)][1..] == [];
  }

  /** The HTTP answer of a favourites call. */
  datatype Reply = Reply(status: int, message: string, show: Option<ShowData>)

  const Invalid := Reply(422, "", None)

  class User {
    /** `user_favorites`, null until first written. */
    var userFavorites: Option<seq<ShowData>>

    constructor (userFavorites: Option<seq<ShowData>>)
      ensures this.userFavorites == userFavorites
    {
      this.userFavorites := userFavorites;
    }

    /** getUserFavorites: the stored list, or the empty list when none is stored. */
    function Favorites(): (r: seq<ShowData>)
      reads this
      ensures userFavorites.None? ==> r == []
      ensures userFavorites.Some? ==> r == userFavorites.value
    {
      userFavorites.GetOr([])
    }

    /** addToFavorites: the scan with its `exists` flag and `break`, then the append. */
    method AddToFavorites(request: Option<ShowRequest>) returns (reply: Reply)
      modifies this
      ensures request.None? ==> reply == Invalid && userFavorites == old(userFavorites)
      ensures request.Some? && HasPair(old(Favorites()), request.value.tmdbId, request.value.showType) ==>
        reply == Reply(200, "Show is already in favorites", None) && userFavorites == old(userFavorites)
      ensures request.Some? && !HasPair(old(Favorites()), request.value.tmdbId, request.value.showType) ==>
        && reply == Reply(201, "Show added to favorites successfully", Some(FormatShowData(request.value)))
        && userFavorites == Some(WithFavorite(old(Favorites()), request.value))
    {
      if request.None? {
        return Invalid;
      }
      var req := request.value;
      var favorites := Favorites();
      var found := false;
      for i := 0 to |favorites|
        invariant !found ==> forall k :: 0 <= k < i ==> !IsPair(favorites[k], req.tmdbId, req.showType)
        invariant found ==> HasPair(favorites, req.tmdbId, req.showType)
      {
        if favorites[i].tmdbId == req.tmdbId && favorites[i].showType == req.showType {
          found := true;
          break;
        }
      }
      if found {
        return Reply(200, "Show is already in favorites", None);
      }
      favorites := favorites + [FormatShowData(req)];
      userFavorites := Some(favorites);
      return Reply(201, "Show added to favorites successfully", Some(favorites[|favorites| - 1]));
    }

    /** removeFromFavorites: always a success, the survivors stored even when nothing matched. */
    method RemoveFromFavorites(tmdbId: string, typeQuery: Option<string>) returns (reply: Reply)
      modifies this
      ensures reply == Reply(200, "Show removed from favorites successfully", None)
      ensures userFavorites == Some(Remaining(old(Favorites()), tmdbId, typeQuery))
    {
      userFavorites := Some(Remaining(Favorites(), tmdbId, typeQuery));
      return Reply(200, "Show removed from favorites successfully", None);
    }
  }
}
