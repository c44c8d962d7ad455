/** The favourites store (src/Components/FavouriteContext.jsx): the list of
    watch-listed car ids, emptied when the user is signed out, and the
    optimistic toggle that flips one id's membership before the request and
    undoes the flip when the request fails. */
module Favourites {
  import opened Js
  import opened Seqs

  datatype HttpMethod = Delete | Post

  /** The request sent for one toggle; `body` is the `carId` of the JSON
      body, absent for a DELETE. */
  datatype Request = Request(verb: HttpMethod, url: string, body: Option<int>)

  const WatchlistUrl: string := "http://localhost:8080/api/watchlist"

  /** `favs.filter(id => id !== carId)` */
  function Without(favs: seq<int>, carId: int): seq<int> {
    Filter(favs, (id: int) => id != carId)
  }

  lemma {:induction false} WithoutMembers(favs: seq<int>, carId: int)
    ensures carId !in Without(favs, carId)
    ensures forall x :: x != carId ==> (x in Without(favs, carId) <==> x in favs)
    ensures IsSubsequence(Without(favs, carId), favs)
  {
    FilterMembers(favs, (id: int) => id != carId);
    FilterIsSubsequence(favs, (id: int) => id != carId);
  }

  /** The optimistic step: remove every occurrence of an id that is a
      favourite, append one that is not. */
  function Optimistic(favs: seq<int>, carId: int): seq<int> {
    if carId in favs then Without(favs, carId) else favs + [carId]
  }

  /** The rollback step on the list as the optimistic step left it:
      re-append a removed id, filter out an added one. */
  function Rollback(favs: seq<int>, carId: int, wasFavourite: bool): seq<int> {
    if wasFavourite then favs + [carId] else Without(favs, carId)
  }

  /** DELETE /api/watchlist/{carId} for a favourite, POST /api/watchlist
      with body {carId} otherwise. */
  function RequestFor(carId: int, wasFavourite: bool): (r: Request)
    ensures wasFavourite ==> r.verb == Delete && r.body.None? && r.url == WatchlistUrl + "/" + IntToString(carId)
    ensures !wasFavourite ==> r.verb == Post && r.body == Some(carId) && r.url == WatchlistUrl
  {
    if wasFavourite then Request(Delete, WatchlistUrl + "/" + IntToString(carId), None)
    else Request(Post, WatchlistUrl, Some(carId))
  }

  /** A successful toggle flips the membership of `carId` and of no other id. */
  lemma {:induction false} OptimisticFlips(favs: seq<int>, carId: int)
    ensures carId in Optimistic(favs, carId) <==> carId !in favs
    ensures forall x :: x != carId ==> (x in Optimistic(favs, carId) <==> x in favs)
  {
    WithoutMembers(favs, carId);
  }

  /** A failed toggle restores the membership every id had before it. */
  lemma {:induction false} RollbackRestoresMembership(favs: seq<int>, carId: int)
    ensures forall x :: x in Rollback(Optimistic(favs, carId), carId, carId in favs) <==> x in favs
  {
    var opt := Optimistic(favs, carId);
    WithoutMembers(favs, carId);
    WithoutMembers(opt, carId);
  }

  /** The rollback restores membership but not position: a favourite that was
      not last comes back at the end. */
  lemma {:induction false} RollbackMovesToEnd()
    ensures Rollback(Optimistic([7, 8], 7), 7, true) == [8, 7]
  {
    assert Optimistic([7, 8], 7) == [8] by {
      assert [7, 8][1..] == [8];
      assert [8][1..] == [];
    }
  }

  /** When the list holds each id once, a failed removal of the last
      favourite, and a failed addition, restore the list exactly. */
  lemma {:induction false} RollbackExactWhenLast(favs: seq<int>, carId: int)
    requires Distinct(favs)
    requires carId !in favs || favs[|favs| - 1] == carId
    ensures Rollback(Optimistic(favs, carId), carId, carId in favs) == favs
  {
    if carId in favs {
      var init := favs[..|favs| - 1];
      assert favs == init + [carId];
      assert carId !in init;
      FilterKeepsAll(init, (id: int) => id != carId);
      FilterAppend(init, [carId], (id: int) => id != carId);
      assert Filter([carId], (id: int) => id != carId) == [];
    } else {
      FilterKeepsAll(favs, (id: int) => id != carId);
      FilterAppend(favs, [carId], (id: int) => id != carId);
      assert Filter([carId], (id: int) => id != carId) == [];
    }
  }

  /** Toggling keeps a list of distinct ids distinct. */
  lemma {:induction false} OptimisticKeepsDistinct(favs: seq<int>, carId: int)
    requires Distinct(favs)
    ensures Distinct(Optimistic(favs, carId))
  {
    if carId in favs {
      WithoutDistinct(favs, carId);
    }
  }

  lemma {:induction false} WithoutDistinct(favs: seq<int>, carId: int)
    requires Distinct(favs)
    ensures Distinct(Without(favs, carId))
  {
    if favs != [] {
      WithoutDistinct(favs[1..], carId);
      WithoutMembers(favs[1..], carId);
      assert favs[0] !in favs[1..];
    }
  }

  /** Two successful toggles of an id that is not a favourite give back the list. */
  lemma {:induction false} ToggleTwiceRestores(favs: seq<int>, carId: int)
    requires carId !in favs
    ensures Optimistic(Optimistic(favs, carId), carId) == favs
  {
    assert carId in favs + [carId];
    FilterKeepsAll(favs, (id: int) => id != carId);
    FilterAppend(favs, [carId], (id: int) => id != carId);
    assert Filter([carId], (id: int) => id != carId) == [];
  }

  /** The state of FavouriteProvider. */
  class FavouriteStore {
    var favourites: seq<int>
    var loading: bool

    constructor ()
      ensures favourites == [] && !loading
    {
      favourites, loading := [], false;
    }

    /** The effect run when the sign-in state or token changes: a signed-out
        user gets an empty list with no request; a signed-in user gets the
        fetched list, or an empty one when the fetch fails. `fetched` is the
        outcome of GET /api/watchlist, consulted only when signed in. */
    method OnAuthChange(isAuthenticated: bool, fetched: Fetched<seq<int>>)
      modifies this
      ensures !isAuthenticated ==> favourites == [] && loading == old(loading)
      ensures isAuthenticated ==> !loading
      ensures isAuthenticated && fetched.Received? ==> favourites == fetched.body
      ensures isAuthenticated && !fetched.Received? ==> favourites == []
    {
      if isAuthenticated {
        loading := true;
        if fetched.Received? {
          favourites := fetched.body;
        } else {
          favourites := [];
        }
        loading := false;
      } else {
        favourites := [];
      }
    }

    /** toggleFavourite: when signed out, nothing changes and nothing is sent.
        Otherwise the optimistic step runs, `request` is sent, and when it
        fails (`succeeded` false) the rollback step runs. */
    method ToggleFavourite(isAuthenticated: bool, carId: int, succeeded: bool) returns (request: Option<Request>)
      modifies this`favourites
      ensures !isAuthenticated ==> request.None? && favourites == old(favourites)
      ensures isAuthenticated ==> request == Some(RequestFor(carId, carId in old(favourites)))
      ensures isAuthenticated && succeeded ==> favourites == Optimistic(old(favourites), carId)
      ensures isAuthenticated && !succeeded ==>
        favourites == Rollback(Optimistic(old(favourites), carId), carId, carId in old(favourites))
    {
      if !isAuthenticated {
        return None;
      }
      var isFavourite := carId in favourites;
      favourites := if isFavourite then Without(favourites, carId) else favourites + [carId];
      request := Some(RequestFor(carId, isFavourite));
      if !succeeded {
        favourites := if isFavourite then favourites + [carId] else Without(favourites, carId);
      }
    }
  }
}
