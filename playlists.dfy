/** Pages of the user's playlists and how a fetched page is merged into the stored one. */
module Playlists {
  import opened JsValues

  /** A playlist object; only its id is modelled, the rest is opaque. */
  datatype Playlist = Playlist(id: string)

  /** The `next` link of a page, with the `limit` and `offset` query values that parsing it
      as a URL yields (None when the parameter is absent). */
  datatype NextLink = NextLink(href: string, limit: Option<string>, offset: Option<string>)

  /** The paging fields of a page other than `items` and `next` (href, limit, offset, total). */
  datatype PageInfo = PageInfo(href: string, limit: int, offset: int, total: int)

  datatype PlaylistPage = PlaylistPage(items: seq<Playlist>, next: Option<NextLink>, info: PageInfo)

  const DefaultLimit: string := "50"
  const DefaultOffset: string := "0"

  /** The `next` link is truthy: present with a non-empty href. */
  predicate HasNext(page: PlaylistPage) {
    page.next.Some? && page.next.value.href != ""
  }

  /** The stored page after a fetch returned `response`: a reset, or an empty store, replaces it;
      otherwise the new items are appended and the new `next` replaces the old one, while the
      other paging fields stay those of the stored page. */
  function Merged(stored: Option<PlaylistPage>, response: PlaylistPage, reset: bool): (r: PlaylistPage)
    ensures reset || stored.None? ==> r == response
    ensures !reset && stored.Some? ==>
      |r.items| == |stored.value.items| + |response.items|
      && r.items[..|stored.value.items|] == stored.value.items
      && r.items[|stored.value.items|..] == response.items
      && r.next == response.next && r.info == stored.value.info
  {
    if stored.None? || reset then response
    else
      var prev := stored.value;
      PlaylistPage(prev.items + response.items, response.next, prev.info)
  }

  /** The (limit, offset) fetchMorePlaylists passes on: the values of the next link's query,
      each replaced by its default when missing or empty. */
  function MoreParams(link: NextLink): (p: (string, string))
    ensures p.0 != "" && p.1 != ""
    ensures TruthyString(link.limit) ==> p.0 == link.limit.value
    ensures !TruthyString(link.limit) ==> p.0 == DefaultLimit
    ensures TruthyString(link.offset) ==> p.1 == link.offset.value
    ensures !TruthyString(link.offset) ==> p.1 == DefaultOffset
  {
    (if TruthyString(link.limit) then link.limit.value else DefaultLimit,
     if TruthyString(link.offset) then link.offset.value else DefaultOffset)
  }

  /** The stored page after appending each of `pages` in turn (fetches with reset = false). */
  function AfterAppends(stored: Option<PlaylistPage>, pages: seq<PlaylistPage>): Option<PlaylistPage>
    decreases |pages|
  {
    if pages == [] then stored
    else AfterAppends(Some(Merged(stored, pages[0], false)), pages[1..])
  }

  function AllItems(pages: seq<PlaylistPage>): seq<Playlist>
    decreases |pages|
  {
    if pages == [] then [] else pages[0].items + AllItems(pages[1..])
  }

  /** Pagination is append-stable: after a first page and any number of appended pages, the
      stored items are all the pages' items in fetch order, the `next` link is the last page's
      and the other paging fields are the first page's. */
  lemma {:induction false} AppendsConcatenate(first: PlaylistPage, pages: seq<PlaylistPage>)
    ensures AfterAppends(Some(first), pages) ==
      Some(PlaylistPage(first.items + AllItems(pages),
                        if pages == [] then first.next else pages[|pages| - 1].next,
                        first.info))
    decreases |pages|
  {
    if pages == [] {
      assert first.items + [] == first.items;
    } else {
      var merged := Merged(Some(first), pages[0], false);
      AppendsConcatenate(merged, pages[1..]);
      assert first.items + pages[0].items + AllItems(pages[1..]) == first.items + AllItems(pages);
      if |pages| > 1 {
        assert pages[1..][|pages| - 2] == pages[|pages| - 1];
      }
    }
  }

  /** A reset fetch followed by an appending fetch stores both pages' items in order, with the
      second page's `next` link. */
  lemma ResetThenAppend(stored: Option<PlaylistPage>, p1: PlaylistPage, p2: PlaylistPage)
    ensures Merged(Some(Merged(stored, p1, true)), p2, false) ==
      PlaylistPage(p1.items + p2.items, p2.next, p1.info)
  {
  }
}
