# News feed view logic, modelled in Dafny

This project models the small amount of stateful logic in the news feed front end
of a mobile app. It covers two components.

- **The vertical news carousel.** Each card shows a relative-age label ("Just now",
  "Nh ago", "Nd ago"). A bookmark button toggles the article's id in a set of ids:
  the handler copies the set and then deletes or adds the id on the copy. The
  component also defines `navigateUp` and `navigateDown`, which ask the pager for
  the previous or next page, but only when that page exists. No control in the
  component calls them. The pager's page-selected event sets the current index.
- **The category tab screen.** Each of the four tabs shows the static article list
  filtered to one category. The tab routes are the category table mapped to
  `{key, title}` pairs, and the selected tab index starts at 0.

Files:

- `wrappers.dfy` holds `Option`.
- `news.dfy` (module `News`) holds the article record, the closed category union,
  the category table and the article list, all from `data/mockNews.ts`.
- `carousel.dfy` (module `Carousel`) holds the age label and the bookmark set
  (`IdSet`, a mutable set object like the source's `Set<string>`). It also holds
  the class `NewsCarousel`, whose fields are the component's state cells.
- `category_tabs.dfy` (module `CategoryTabs`) holds the scene filters, the routes
  and the class `TabState` for the selected index.

Timestamps are whole milliseconds since the epoch, the value `Date.getTime()` gives.
The current time is a parameter. `Math.floor(x / 3600000)` is Dafny's `/` because
the divisor is positive, so future publication dates (negative elapsed time) round
down just as in the source.

The pager and tab view are library components. The model covers only what is asked
of them: `NavigateUp` and `NavigateDown` return the page that would be passed to
`setPage`, or `None` when nothing is asked. `OnPageSelected` and `OnIndexChange`
are the callbacks those components invoke.

## Model

| member | source | states |
|---|---|---|
| `Carousel.HoursSince` | components/VerticalNewsCarousel.tsx:30 | the hour count is the floor of elapsed ms / 3600000: `h*H <= elapsed < (h+1)*H`, negative for future dates |
| `Carousel.DaysFromHours` | components/VerticalNewsCarousel.tsx:37 | flooring the hour count by 24 gives the floor of elapsed time in whole days |
| `Carousel.Age` | components/VerticalNewsCarousel.tsx:27-40 | JustNow iff under one hour elapsed (future included); hours bucket iff 1h <= elapsed < 24h, with 1 <= hours < 24 the whole hours; days bucket iff elapsed >= 24h, with days >= 1 the whole days |
| `Carousel.NatToString` | components/VerticalNewsCarousel.tsx:35-38 | the number printed into the label is nonempty, all decimal digits, with no leading zero except "0" |
| `Carousel.DecimalValueOfNatToString` | components/VerticalNewsCarousel.tsx:35-38 | reading the printed number back as decimal gives the number |
| `Carousel.ParseLabelOfLabel` | components/VerticalNewsCarousel.tsx:32-39 | every label reads back as exactly its bucket and count |
| `Carousel.LabelInjective` | components/VerticalNewsCarousel.tsx:32-39 | two different buckets or counts never show the same text |
| `Carousel.Label` | components/VerticalNewsCarousel.tsx:32-39 | the text is "Just now" exactly for the JustNow bucket; otherwise it is a decimal count with no leading zero, followed by "h ago" for hours and "d ago" for days |
| `Carousel.FormatDate` | components/VerticalNewsCarousel.tsx:27-40 | the label text reads back as the age bucket and its count (leading zeros rejected, so the text is fixed exactly), and it is "Just now" iff less than one hour has elapsed |
| `Carousel.Toggle` | components/VerticalNewsCarousel.tsx:42-51 | the toggled id is in the result iff it was not in the set; every other id keeps its membership; the size moves by one |
| `Carousel.ToggleTwice` | components/VerticalNewsCarousel.tsx:42-51 | toggling the same id twice gives back the original set |
| `Carousel.IdSet.Empty` | components/VerticalNewsCarousel.tsx:23 | a new set has no members |
| `Carousel.IdSet.Copy` | components/VerticalNewsCarousel.tsx:44 | `new Set(prev)` is a fresh set with the same members |
| `Carousel.IdSet.Has` | components/VerticalNewsCarousel.tsx:45 | `has` is membership |
| `Carousel.IdSet.Delete` | components/VerticalNewsCarousel.tsx:46 | `delete` removes exactly that id |
| `Carousel.IdSet.Add` | components/VerticalNewsCarousel.tsx:48 | `add` inserts exactly that id |
| `Carousel.NewsCarousel.constructor` | components/VerticalNewsCarousel.tsx:21-23 | on mount the current index is 0 and the bookmark set is empty |
| `Carousel.NewsCarousel.HandleBookmark` | components/VerticalNewsCarousel.tsx:42-51 | the new bookmark set is a fresh object equal to the toggle of the old members; the previous set object keeps its members; the current index is unchanged |
| `Carousel.NewsCarousel.IsBookmarked` | components/VerticalNewsCarousel.tsx:94 | a card shows as bookmarked iff its article id is in the bookmark set |
| `Carousel.NewsCarousel.NavigateUp` | components/VerticalNewsCarousel.tsx:60-64 | a page is asked for iff the current index is > 0; the page is the previous one and never negative, and it lies within the pages when the index is valid |
| `Carousel.NewsCarousel.NavigateDown` | components/VerticalNewsCarousel.tsx:66-70 | a page is asked for iff the current index is below the last page; the page is the next one and is below the article count, and it is non-negative when the index is valid |
| `Carousel.NewsCarousel.OnPageSelected` | components/VerticalNewsCarousel.tsx:160-162 | after the event the current index is the reported position, and the index invariant holds when that position is a page |
| `News.CategoryKeyInjective` | data/mockNews.ts:7 | the four category literals are pairwise distinct |
| `CategoryTabs.SceneArticles` | components/CategoryTabs.tsx:21-23 | the filtered list has only articles of the category; each article of that category occurs in it as often as in the input, and others not at all; it is an order-preserving subsequence of the input, no longer than the input |
| `CategoryTabs.ScenesDisjoint` | components/CategoryTabs.tsx:18-47 | the lists of two different categories share no article |
| `CategoryTabs.ScenesCoverEveryArticleOnce` | components/CategoryTabs.tsx:18-47 | the four scene lists together are the input's multiset of articles, and their lengths add up to its length |
| `CategoryTabs.SceneFor` | components/CategoryTabs.tsx:18-47 | a key has a scene iff it is one of the four scene keys; every article in that scene has the category named by the key; each article of that category occurs in it as often as in the input, and no other article occurs; the scene keeps the input order |
| `CategoryTabs.RenderScene` | components/CategoryTabs.tsx:18-47 | a key has a scene iff it is one of the four scene keys; the scene holds every article of the static list whose category the key names, as often as the list does, and no other article, in the list's order |
| `CategoryTabs.Routes` | components/CategoryTabs.tsx:52-54 | the routes have the table's length, and route i has entry i's key and title |
| `CategoryTabs.RoutesOfCategories` | data/mockNews.ts:111-116 | the routes are topstories, trending, technology and sports, in that order, with their titles |
| `CategoryTabs.RouteKeysAreSceneKeys` | components/CategoryTabs.tsx:18-54 | the set of route keys is exactly the set of scene keys, and no route key repeats |
| `CategoryTabs.EveryRouteHasAScene` | components/CategoryTabs.tsx:18-54 | every route's key renders a scene |
| `CategoryTabs.TabState.constructor` | components/CategoryTabs.tsx:51-54 | the selected index starts at 0 and the routes come from the category table |
| `CategoryTabs.TabState.OnIndexChange` | components/CategoryTabs.tsx:120 | the index the tab view reports replaces the selected index |
| `CategoryTabs.TabState.ActiveScene` | components/CategoryTabs.tsx:117-119 | with a valid index, the selected tab has a scene; every article in it has that tab's category, and every article of that category in the static list is in it, as often as in the list and in the list's order |

## Left out

- Animation (scale and opacity interpolation, spring values, `scrollY`): floating-point numerics in an animation library.
- `setPage` and `jumpTo`, and the pager, tab view and tab bar themselves: these are library components. Only the page or index they are asked for or report is modelled.
- ISO date-string parsing and `new Date()`: the current time and the publication time are integer millisecond inputs. An invalid date string (NaN) is not modelled.
- `Carousel.HoursSince`: floating-point rounding of the double division is ignored, and `/` is taken as exact rational division followed by a floor. The two agree for elapsed times of realistic size.
- `handleShare`: it only writes to the console.
- Styles, images, asset requires, and the header, button and layout files: rendering only.
- The post list item: its relative time comes from a date library outside this model.
- The search screen's debounce timer, facet and text filter, and match highlighting (app/(protected)/(tabs)/search.tsx): they belong to the search screen, not to the carousel or the category tabs modelled here.
- React re-rendering: each state cell is a field, and each `useState` updater runs at once on the current value.
