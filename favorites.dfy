/**
 * The favorites registry (app.js:495-549): a list of named energy values,
 * appended to by the save button, filtered by id on delete, and shown
 * through a case-insensitive search on the name.
 */
module Favorites {
  import opened Text
  import opened Seqs

  /** One favorite; `id` is the `Date.now()` of its creation. */
  datatype Favorite = Favorite(id: int, name: string, energy: real, unit: string, per: string)

  /** Keeps the favorites whose id is not `id`. */
  function NotFavoriteId(id: int): Favorite -> bool {
    (f: Favorite) => f.id != id
  }

  /** Keeps the favorites whose lower-cased name contains the lower-cased term. */
  function NameMatches(term: string): Favorite -> bool {
    (f: Favorite) => Contains(ToLower(f.name), ToLower(term))
  }

  /** The search view of `renderFavorites`: the matching favorites, in list order. */
  function SearchView(items: seq<Favorite>, term: string): (r: seq<Favorite>)
    ensures forall i :: 0 <= i < |r| ==> r[i] in items && Contains(ToLower(r[i].name), ToLower(term))
    ensures forall i :: 0 <= i < |items| && Contains(ToLower(items[i].name), ToLower(term)) ==> items[i] in r
  {
    Filter(items, NameMatches(term))
  }

  /** An empty search term shows every favorite. */
  lemma EmptySearchShowsAll(items: seq<Favorite>)
    ensures SearchView(items, "") == items
  {
    forall i | 0 <= i < |items|
      ensures NameMatches("")(items[i])
    {
      assert OccursAt(ToLower(items[i].name), ToLower(""), 0);
    }
    FilterAllPass(items, NameMatches(""));
  }

  /** The search ignores the case of Basic Latin letters in the term. */
  lemma SearchIgnoresCase(items: seq<Favorite>, term: string, term': string)
    requires ToLower(term) == ToLower(term')
    ensures SearchView(items, term) == SearchView(items, term')
  {
  }

  /** The list held by `initFavorites`. */
  class Registry {
    var items: seq<Favorite>

    /** `loadLS('nutrition:favorites:v1', [])`: the stored list, or none. */
    constructor (stored: seq<Favorite>)
      ensures items == stored
    {
      items := stored;
    }

    /**
     * `saveFavorite`, with the form's name, parsed energy, unit, serving
     * label and `Date.now()` passed in. A blank trimmed name or an energy
     * that is not positive is refused and the list is left alone.
     */
    method SaveFavorite(rawName: string, energy: real, unit: string, per: string, now: int) returns (saved: bool)
      modifies this
      ensures saved <==> Trim(rawName) != "" && energy > 0.0
      ensures items == if saved then old(items) + [Favorite(now, Trim(rawName), energy, unit, per)] else old(items)
    {
      var name := Trim(rawName);
      if name == "" || energy <= 0.0 {
        return false;
      }
      items := items + [Favorite(now, name, energy, unit, per)];
      saved := true;
    }

    /** `deleteFavorite(id)`: every favorite with that id goes, the rest keep their order. */
    method DeleteFavorite(id: int)
      modifies this
      ensures items == Filter(old(items), NotFavoriteId(id))
      ensures forall i :: 0 <= i < |items| ==> items[i].id != id && items[i] in old(items)
      ensures forall i :: 0 <= i < |old(items)| && old(items)[i].id != id ==> old(items)[i] in items
    {
      items := Filter(items, NotFavoriteId(id));
    }

    /** The favorites `renderFavorites` lists for the search term; reading it changes nothing. */
    function Search(term: string): (r: seq<Favorite>)
      reads this
      ensures |r| <= |items|
      ensures forall i :: 0 <= i < |r| ==> r[i] in items && Contains(ToLower(r[i].name), ToLower(term))
    {
      SearchView(items, term)
    }
  }

  /** A second delete of the same id changes nothing. */
  lemma DeleteIdempotent(items: seq<Favorite>, id: int)
    ensures Filter(Filter(items, NotFavoriteId(id)), NotFavoriteId(id)) == Filter(items, NotFavoriteId(id))
  {
    FilterIdempotent(items, NotFavoriteId(id));
  }

  /** Deleting from a list split in two deletes from each part and keeps them in order. */
  lemma DeleteKeepsOrder(before: seq<Favorite>, after: seq<Favorite>, id: int)
    ensures Filter(before + after, NotFavoriteId(id)) == Filter(before, NotFavoriteId(id)) + Filter(after, NotFavoriteId(id))
  {
    FilterConcat(before, after, NotFavoriteId(id));
  }
}
