/**
 * The category tab screen (components/CategoryTabs.tsx): one scene per
 * category, each a filtered view of the static article list, and the tab
 * routes derived from the category table.
 */
module CategoryTabs {
  import opened Wrappers
  import opened News

  /** `sub` is obtained from `s` by deleting elements, keeping the order of the rest. */
  predicate IsSubsequence<T(==)>(sub: seq<T>, s: seq<T>)
  {
    if sub == [] then true
    else if s == [] then false
    else if sub[0] == s[0] then IsSubsequence(sub[1..], s[1..])
    else IsSubsequence(sub, s[1..])
  }

  /**
   * `articles.filter(a => a.category === c)`: exactly the articles of
   * category `c`, each as often as in the input, in their input order.
   */
  function SceneArticles(articles: seq<Article>, c: Category): (r: seq<Article>)
    ensures |r| <= |articles|
    ensures forall i :: 0 <= i < |r| ==> r[i].category == c
    ensures forall a :: multiset(r)[a] == if a.category == c then multiset(articles)[a] else 0
    ensures IsSubsequence(r, articles)
  {
    if articles == [] then []
    else
      assert articles == [articles[0]] + articles[1..];
      var rest := SceneArticles(articles[1..], c);
      if articles[0].category == c then [articles[0]] + rest
      else
        assert rest == [] || rest[0] != articles[0];
        rest
  }

  /** Two different scenes share no article. */
  lemma ScenesDisjoint(articles: seq<Article>, c1: Category, c2: Category)
    requires c1 != c2
    ensures multiset(SceneArticles(articles, c1)) * multiset(SceneArticles(articles, c2)) == multiset{}
  {
  }

  /** Together the four scenes hold every article exactly as often as the input. */
  lemma ScenesCoverEveryArticleOnce(articles: seq<Article>)
    ensures multiset(SceneArticles(articles, TopStories)) + multiset(SceneArticles(articles, Trending))
          + multiset(SceneArticles(articles, Technology)) + multiset(SceneArticles(articles, Sports))
         == multiset(articles)
    ensures |SceneArticles(articles, TopStories)| + |SceneArticles(articles, Trending)|
          + |SceneArticles(articles, Technology)| + |SceneArticles(articles, Sports)|
         == |articles|
  {
  }

  /** The keys of the scene map. */
  const SceneKeys: set<string> := {"topstories", "trending", "technology", "sports"}

  /**
   * The scene map over an article list: each of the four keys renders its
   * category's slice of the list; any other key has no scene.
   */
  function SceneFor(articles: seq<Article>, key: string): (scene: Option<seq<Article>>)
    ensures scene.Some? <==> key in SceneKeys
    ensures scene.Some? ==> forall i :: 0 <= i < |scene.value| ==> CategoryKey(scene.value[i].category) == key
    ensures scene.Some? ==> forall a :: multiset(scene.value)[a] == if CategoryKey(a.category) == key then multiset(articles)[a] else 0
    ensures scene.Some? ==> IsSubsequence(scene.value, articles)
  {
    if key == "topstories" then Some(SceneArticles(articles, TopStories))
    else if key == "trending" then Some(SceneArticles(articles, Trending))
    else if key == "technology" then Some(SceneArticles(articles, Technology))
    else if key == "sports" then Some(SceneArticles(articles, Sports))
    else None
  }

  /**
   * The scene the tab view renders for a route key: for each of the four keys,
   * every article of the static list with that key's category, and no other,
   * in the list's order.
   */
  function RenderScene(key: string): (scene: Option<seq<Article>>)
    ensures scene.Some? <==> key in SceneKeys
    ensures scene.Some? ==> forall a :: multiset(scene.value)[a] == if CategoryKey(a.category) == key then multiset(MockNewsData)[a] else 0
    ensures scene.Some? ==> IsSubsequence(scene.value, MockNewsData)
  {
    SceneFor(MockNewsData, key)
  }

  /** A tab route. */
  datatype Route = Route(key: string, title: string)

  /** `categories.map(cat => ({ key: cat.key, title: cat.title }))`. */
  function Routes(cats: seq<CategoryEntry>): (r: seq<Route>)
    ensures |r| == |cats|
    ensures forall i :: 0 <= i < |r| ==> r[i].key == cats[i].key && r[i].title == cats[i].title
  {
    if cats == [] then []
    else [Route(cats[0].key, cats[0].title)] + Routes(cats[1..])
  }

  /** The routes are the category table's keys and titles, in order. */
  lemma RoutesOfCategories()
    ensures Routes(Categories) == [
      Route("topstories", "Top Stories"), Route("trending", "Trending"),
      Route("technology", "Technology"), Route("sports", "Sports")]
  {
  }

  /** The route keys are exactly the scene keys, and no key repeats. */
  lemma RouteKeysAreSceneKeys()
    ensures (set i | 0 <= i < |Routes(Categories)| :: Routes(Categories)[i].key) == SceneKeys
    ensures forall i, j :: 0 <= i < j < |Routes(Categories)| ==> Routes(Categories)[i].key != Routes(Categories)[j].key
  {
    RoutesOfCategories();
    var r := Routes(Categories);
    var keys := set i | 0 <= i < |r| :: r[i].key;
    assert keys == SceneKeys by {
      assert r[0].key in keys && r[1].key in keys && r[2].key in keys && r[3].key in keys;
    }
  }

  /** Every route has a scene. */
  lemma EveryRouteHasAScene(i: int)
    requires 0 <= i < |Routes(Categories)|
    ensures RenderScene(Routes(Categories)[i].key).Some?
  {
  }

  /** The tab view's navigation state: the selected index over the routes. */
  class TabState {
    const routes: seq<Route>
    var index: int

    ghost predicate Valid()
      reads this
    {
      routes == Routes(Categories) && 0 <= index < |routes|
    }

    /** Mounting: the routes come from the category table, the first tab is selected. */
    constructor()
      ensures routes == Routes(Categories) && index == 0
      ensures Valid()
    {
      routes := Routes(Categories);
      index := 0;
    }

    /** The tab view reports a new index: it replaces the old one. */
    method OnIndexChange(i: int)
      modifies this`index
      ensures index == i
      ensures routes == Routes(Categories) && 0 <= i < |routes| ==> Valid()
    {
      index := i;
    }

    /** The scene of the selected tab: exactly the articles of that tab's category, in list order. */
    function ActiveScene(): (scene: Option<seq<Article>>)
      reads this
      ensures Valid() ==> scene.Some?
      ensures Valid() ==> forall k :: 0 <= k < |scene.value| ==> CategoryKey(scene.value[k].category) == routes[index].key
      ensures Valid() ==> forall a :: multiset(scene.value)[a] == if CategoryKey(a.category) == routes[index].key then multiset(MockNewsData)[a] else 0
      ensures Valid() ==> IsSubsequence(scene.value, MockNewsData)
    {
      if 0 <= index < |routes| then RenderScene(routes[index].key) else None
    }
  }
}
