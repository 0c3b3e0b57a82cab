/**
 * `NewsViewModel`: the bundled feed (`allNews`, in shuffled order) and the
 * part of it shown so far (`news`), revealed five stories at a time.
 */
module Feed {
  import opened Wrappers
  import opened NewsModel

  const ItemsPerPage: nat := 5

  function Min(a: int, b: int): int {
    if a <= b then a else b
  }

  /** How many stories are shown once `page` pages have been loaded. */
  function ShownCount(total: nat, page: nat): nat {
    Min(page * ItemsPerPage, total)
  }

  /** The stories shown once `page` pages of `all` have been loaded. */
  function Shown(all: seq<News>, page: nat): seq<News> {
    all[..ShownCount(|all|, page)]
  }

  /** Number of pages needed for `total` stories: ceil(total / 5). */
  function PageCount(total: nat): nat {
    (total + ItemsPerPage - 1) / ItemsPerPage
  }

  /** A page exists past `page` exactly when `page` is below the page count. */
  lemma PageCountBound(total: nat, page: nat)
    ensures page * ItemsPerPage < total <==> page < PageCount(total)
  {
  }

  /** Loading page `page` extends what is shown by that page's slice. */
  lemma ShownNextPage(all: seq<News>, page: nat)
    requires page * ItemsPerPage < |all|
    ensures Shown(all, page + 1) ==
      Shown(all, page) + all[page * ItemsPerPage .. Min(page * ItemsPerPage + ItemsPerPage, |all|)]
    ensures |Shown(all, page + 1)| - |Shown(all, page)| <= ItemsPerPage
  {
    var start := page * ItemsPerPage;
    assert ShownCount(|all|, page) == start;
    assert all[..Min(start + ItemsPerPage, |all|)] == all[..start] + all[start..Min(start + ItemsPerPage, |all|)];
  }

  /** Once every page is loaded, loading more shows nothing new. */
  lemma ShownComplete(all: seq<News>, page: nat)
    requires page * ItemsPerPage >= |all|
    ensures Shown(all, page) == all
  {
  }

  class NewsViewModel {
    var news: seq<News>
    var currentLanguage: string
    var allNews: seq<News>
    var currentPage: nat
    const itemsPerPage: nat := ItemsPerPage
    const availableLanguages: seq<string>

    /** `news` is exactly the first `currentPage` pages of `allNews`. */
    ghost predicate Valid()
      reads this
    {
      && currentPage <= PageCount(|allNews|)
      && news == Shown(allNews, currentPage)
    }

    /**
     * `init()`: `decoded` is the bundled feed as decoded, or `None` when the
     * file is missing, unreadable or not decodable; `shuffled` is the order
     * `shuffled()` picked for it.
     */
    constructor (decoded: Option<seq<News>>, shuffled: seq<News>)
      requires decoded.Some? ==> multiset(shuffled) == multiset(decoded.value)
      ensures Valid()
      ensures currentLanguage == "English"
      ensures availableLanguages == ["English", "हिंदी", "ગુજરાતી", "தமிழ்", "मराठी"]
      ensures allNews == (if decoded.Some? then shuffled else [])
      ensures news == allNews[..Min(ItemsPerPage, |allNews|)]
      ensures currentPage == (if |allNews| > 0 then 1 else 0)
    {
      news := [];
      currentLanguage := "English";
      allNews := [];
      currentPage := 0;
      availableLanguages := ["English", "हिंदी", "ગુજરાતી", "தமிழ்", "मराठी"];
      new;
      if decoded.Some? {
        allNews := shuffled;
        LoadMoreNews();
      }
    }

    /** Appends the next page of `allNews`, if any remains. */
    method LoadMoreNews()
      modifies this
      ensures old(Valid()) ==> Valid()
      ensures allNews == old(allNews)
      ensures currentLanguage == old(currentLanguage)
      ensures |old(news)| <= |news| <= |old(news)| + itemsPerPage
      ensures old(currentPage) * itemsPerPage < |allNews| ==>
        && news == old(news) + allNews[old(currentPage) * itemsPerPage ..
                                       Min(old(currentPage) * itemsPerPage + itemsPerPage, |allNews|)]
        && currentPage == old(currentPage) + 1
      ensures old(currentPage) * itemsPerPage >= |allNews| ==>
        news == old(news) && currentPage == old(currentPage)
    {
      var startIndex := currentPage * itemsPerPage;
      var endIndex := Min(startIndex + itemsPerPage, |allNews|);
      if startIndex >= |allNews| {
        return;
      }
      var newItems := allNews[startIndex..endIndex];
      if old(Valid()) {
        ShownNextPage(allNews, currentPage);
        PageCountBound(|allNews|, currentPage);
      }
      news := news + newItems;
      currentPage := currentPage + 1;
    }

    /** Reshuffles the feed into `shuffled` and shows its first page again. */
    method RefreshNews(shuffled: seq<News>)
      requires multiset(shuffled) == multiset(allNews)
      modifies this
      ensures Valid()
      ensures allNews == shuffled && multiset(allNews) == old(multiset(allNews))
      ensures news == allNews[..Min(ItemsPerPage, |allNews|)]
      ensures currentPage == (if |allNews| > 0 then 1 else 0)
      ensures currentLanguage == old(currentLanguage)
    {
      news := [];
      currentPage := 0;
      allNews := shuffled;
      LoadMoreNews();
    }
  }
}
