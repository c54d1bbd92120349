/**
 * The article record, the closed category union and the static data tables
 * of the news feed (data/mockNews.ts). No logic lives here.
 */
module News {

  /** The closed four-value category union of an article. */
  datatype Category = TopStories | Trending | Technology | Sports

  /** The string literal that stands for a category in the source. */
  function CategoryKey(c: Category): (k: string)
  {
    match c
    case TopStories => "topstories"
    case Trending => "trending"
    case Technology => "technology"
    case Sports => "sports"
  }

  /**
   * A news article. The ISO timestamp of the source is kept as the number
   * of milliseconds since the Unix epoch that `Date.getTime()` would give.
   */
  datatype Article = Article(
    id: string,
    headline: string,
    description: string,
    imageUrl: string,
    publishedAtMs: int,
    category: Category,
    source: string)

  /** One entry of the category table: the tab key and its title. */
  datatype CategoryEntry = CategoryEntry(key: string, title: string)

  /** The category table, in tab order. */
  const Categories: seq<CategoryEntry> := [
    CategoryEntry("topstories", "Top Stories"),
    CategoryEntry("trending", "Trending"),
    CategoryEntry("technology", "Technology"),
    CategoryEntry("sports", "Sports")
  ]

  /** Milliseconds since the epoch of 2025-01-14T<hour>:<minute>:00Z. */
  function OnJan14of2025(hour: nat, minute: nat): (ms: int)
  {
    1736812800000 + hour * 3600000 + minute * 60000
  }

  /** The static article list the tab scenes filter. */
  const MockNewsData: seq<Article> := [
    Article("1", "Global Climate Summit Reaches Breakthrough Agreement",
      "U.S. President Donald Trump reiterated concerns about India purchasing oil from Russia, following his announcement of a 25% tariff on Indian imports. This has sparked discussions on the impact of trade policies on global economies.",
      "https://images.pexels.com/photos/2990650/pexels-photo-2990650.jpeg?auto=compress&cs=tinysrgb&w=800",
      OnJan14of2025(10, 30), TopStories, "Global News"),
    Article("2", "Revolutionary Medical Breakthrough in Cancer Treatment",
      "Scientists develop new immunotherapy that shows 95% success rate in early trials for multiple cancer types.",
      "https://images.pexels.com/photos/3844581/pexels-photo-3844581.jpeg?auto=compress&cs=tinysrgb&w=800",
      OnJan14of2025(9, 15), TopStories, "Medical Tribune"),
    Article("3", "Space Station Mission Launches Successfully",
      "International crew begins six-month mission to conduct groundbreaking research in zero gravity.",
      "https://images.pexels.com/photos/586063/pexels-photo-586063.jpeg?auto=compress&cs=tinysrgb&w=800",
      OnJan14of2025(8, 45), TopStories, "Space Daily"),
    Article("4", "Social Media Platform Introduces Revolutionary Privacy Features",
      "New end-to-end encryption and data ownership controls give users unprecedented control over their digital footprint.",
      "https://images.pexels.com/photos/267389/pexels-photo-267389.jpeg?auto=compress&cs=tinysrgb&w=800",
      OnJan14of2025(11, 20), Trending, "Tech Insider"),
    Article("5", "Viral Dance Challenge Raises Millions for Charity",
      "Global movement started by teenagers has now raised over $50 million for children's education worldwide.",
      "https://images.pexels.com/photos/3171837/pexels-photo-3171837.jpeg?auto=compress&cs=tinysrgb&w=800",
      OnJan14of2025(10, 0), Trending, "Social Impact"),
    Article("6", "AI Assistant Breakthrough: Understanding Context Like Humans",
      "New language model demonstrates unprecedented ability to maintain context across complex conversations and tasks.",
      "https://images.pexels.com/photos/8386440/pexels-photo-8386440.jpeg?auto=compress&cs=tinysrgb&w=800",
      OnJan14of2025(12, 30), Technology, "AI Weekly"),
    Article("7", "Quantum Computing Milestone: 1000-Qubit Processor Unveiled",
      "Tech giant announces quantum processor capable of solving complex problems in minutes instead of years.",
      "https://images.pexels.com/photos/2148222/pexels-photo-2148222.jpeg?auto=compress&cs=tinysrgb&w=800",
      OnJan14of2025(11, 45), Technology, "Quantum Today"),
    Article("8", "Electric Vehicle Sales Surge 300% Globally",
      "Record-breaking year for EV adoption as battery technology improvements drive costs down significantly.",
      "https://images.pexels.com/photos/3844554/pexels-photo-3844554.jpeg?auto=compress&cs=tinysrgb&w=800",
      OnJan14of2025(9, 30), Technology, "Auto Tech"),
    Article("9", "Olympic Records Shattered at Winter Games",
      "Athletes break multiple world records in figure skating and speed skating events in thrilling competitions.",
      "https://images.pexels.com/photos/863988/pexels-photo-863988.jpeg?auto=compress&cs=tinysrgb&w=800",
      OnJan14of2025(13, 15), Sports, "Olympic News"),
    Article("10", "Championship Game Sets Viewership Records",
      "Historic match draws over 200 million viewers worldwide, becoming most-watched sporting event of the decade.",
      "https://images.pexels.com/photos/274422/pexels-photo-274422.jpeg?auto=compress&cs=tinysrgb&w=800",
      OnJan14of2025(12, 0), Sports, "Sports Central")
  ]

  /** Each category's key is told apart from every other's. */
  lemma CategoryKeyInjective(c1: Category, c2: Category)
    ensures CategoryKey(c1) == CategoryKey(c2) ==> c1 == c2
  {
  }
}
