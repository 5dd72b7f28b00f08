# Detail page of the CineParadis movie/TV front-end, modelled in Dafny

CineParadis is a React front-end for a third-party media database. This model covers
the logic behind its detail page for one movie or series. It has three parts.

- **Fetch.** The page sends one request for a composite record. The request
  embeds videos, images, recommendations, credits and other sub-resources.
  The page keeps the record and four slices read from it: videos, photos,
  recommendations and cast. A `loading` flag is raised while the response is
  awaited.
- **Tabs.** A five-tab selector chooses between Top Cast, Details, Photos,
  Videos and More Like This.
- **Derived values.** The page derives its document title, backdrop URL and
  slug, and decides which single view it draws. The More Like This tab turns
  the first twelve recommendations into card properties.

Modules:

- `Js` (`js.dfy`): the JavaScript semantics the page relies on.
  - An optional JSON property is an `Option`.
  - A string property is truthy when it is present and non-empty.
  - `a || b` is `Or`.
  - `Display` gives how a template literal prints a property.
- `Recommendations` (`recommendations.dfy`): the `slice(0, 12).map(...)`
  projection of recommendation entries into card fields.
- `Details` (`details_page.dfy`): two kinds of code.
  - The pure derivations: slug, request URL, document title, backdrop, tab
    highlights, tab views and the whole rendered view.
  - The class `DetailsPage`, which holds the page state (`content`, `videos`,
    `photos`, `recommended`, `credits`, `loading`, `active`). Its methods are
    `StartFetch` (before the `await`), `CompleteFetch` (after the `await`) and
    `Select` (a tab click). Its invariant `Valid` says one thing: whenever a
    record is shown and the page is not loading, the four slices are the ones
    read from that record.

Behaviour of the code that shapes the model:

- **No error state.** The response handler has no error handling.
  - It stores the record first.
  - It then reads `videos.results`, `recommendations.results` and
    `credits.cast` with no guard.
  - A missing `videos`, `recommendations` or `credits` object throws. The
    remaining steps never run and `loading` stays true, so the page shows the
    spinner for good.
  - `CompleteFetch` models exactly this. It stores the record, sets the slices
    read before the failing step, returns `completed == false` and leaves
    `loading` true.
  - A rejected request leaves `loading` true for good as well. The model shows
    this as a `StartFetch` with no `CompleteFetch` after it.
- **One fetch per mount.** The fetch runs once, on mount, because the effect's
  dependency list is empty. Nothing refetches or resets the tab when the route
  changes, and there is no guard against stale responses. The tab starts at 0
  only in the constructor.
- **The `append_to_response` value is built.** Its value is written as the
  comma-join of seven resource names (`AppendedResourceNames`) rather than as a
  string literal. `Split` and `Join` are not code of the page: `Join` spells
  the list and `Split` stands for how the receiving server reads it back.
  `SplitSlug` is not code of the page either: it stands for how the router
  reads a `/:type/:id` path back into its two segments.
  `AppendedResources` proves that splitting it gives the seven names back,
  among them the four sub-resources the handler reads.
- **The recommendations tab throws on a missing list.** A fetch can complete
  with `recommendations.results` absent, and `recommended.slice(0, 12)` then
  throws. `RecommendedTab` models that throw as `None`.

## Model

| member | source | states |
|---|---|---|
| `Js.Or` | src/components/details/Recomamded.js:15-16 | `a \|\| b` returns one of its operands. It returns `a` when `a` is truthy and `b` otherwise, so `"" \|\| undefined` is `undefined`. The result is truthy exactly when either operand is. |
| `Js.Display` | src/pages/withid/DetailsPage.js:60 | A template literal prints a present string as itself and an absent one as `undefined`. |
| `Recommendations.ToCard` | src/components/details/Recomamded.js:11-21 | A card copies `id`, `media_type`, `vote_average` and `overview` unchanged. Its poster is the entry's `backdrop_path`. Its title is `title` when that is truthy, otherwise `name`. Its date is `release_date` when that is truthy, otherwise `first_air_date`. |
| `Recommendations.MapCards` | src/components/details/Recomamded.js:10 | The `map` step yields exactly one card per entry, at the same position. |
| `Recommendations.Recommended` | src/components/details/Recomamded.js:10-22 | There are `min(12, \|recommended\|)` cards. Card `i` is the card of entry `i`, so order is preserved. |
| `Recommendations.RecommendedTab` | src/components/details/Recomamded.js:5-10 | The tab throws (`None`) exactly when `recommended` is undefined. Otherwise it gives exactly `min(12, n)` cards for `n` entries, card `i` being the card of entry `i`. |
| `Recommendations.RecommendedIgnoresTail` | src/components/details/Recomamded.js:10 | With twelve or more entries, appending more entries does not change the cards. |
| `Recommendations.PosterPathUnused` | src/components/details/Recomamded.js:14 | Entries that differ only in `poster_path` give identical cards. |
| `Details.Slug` | src/pages/withid/DetailsPage.js:64 | The slug is `type`, a slash, then `id`, with nothing else. |
| `Details.SlugRoundTrip` | src/pages/withid/DetailsPage.js:64 | Splitting the slug `type/id` at its first slash gives back `type` and `id` when `type` holds no slash. |
| `Details.SlugInjective` | src/pages/withid/DetailsPage.js:64 | Two (type, id) pairs with the same slug are the same pair. |
| `Details.ApiKey` | src/pages/withid/DetailsPage.js:26 | The key parameter is `api_key=` followed by the key from the environment, or by `undefined` when it is unset. |
| `Details.RequestUrl` | src/pages/withid/DetailsPage.js:41-43 | The request starts with the API base, a slash, the page slug and `?`. The query after it is the key parameter, `&language=en&append_to_response=` and the list of appended sub-resources, which ends the URL. |
| `Details.AppendedResources` | src/pages/withid/DetailsPage.js:42-49 | The `append_to_response` list splits into its seven names. These include `videos`, `images`, `recommendations` and `credits`, the four sub-resources the handler reads. |
| `Details.DisplayName` | src/pages/withid/DetailsPage.js:60 | `${content.name \|\| content.title}` prints `name` when it is truthy, else `title` when present, else `undefined`. |
| `Details.DocumentTitle` | src/pages/withid/DetailsPage.js:58-62 | With no record the title is `CineParadis`. With a record it is `name` (if truthy), else `title`, else `undefined`, followed by ` - CineParadis`. The title always ends with the site name. |
| `Details.Backdrop` | src/pages/withid/DetailsPage.js:65-67 | The URL is empty exactly when no record with a truthy `backdrop_path` is loaded. Otherwise it is the `img500` base followed by that path. |
| `Details.Highlights` | src/pages/withid/DetailsPage.js:127-167 | There are five tab flags, and tab `k` is highlighted exactly when `active == k`. So at most one is highlighted, and one is highlighted exactly when `active` is in 0..4. |
| `Details.Panels` | src/pages/withid/DetailsPage.js:170-212 | Tab view `k` (cast, facts, photos, videos, recommendations) is drawn exactly when `active == k` and a record is loaded. At most one view is ever drawn. |
| `Details.Render` | src/pages/withid/DetailsPage.js:105-212 | The spinner is drawn exactly while loading: no banner, no tabs and no view. Otherwise the banner is drawn exactly when a record is loaded, tab `k` is highlighted exactly when `active == k`, and at most one view is drawn (the selected one, once a record is loaded). |
| `Details.DetailsPage.constructor` | src/pages/withid/DetailsPage.js:32-37 | On mount there is no record and no slices. `loading` is false and the selected tab is 0 (line 96). |
| `Details.DetailsPage.StartFetch` | src/pages/withid/DetailsPage.js:39-43 | Raises `loading` and forms the request URL for this page's type and id. Nothing else changes. |
| `Details.DetailsPage.CompleteFetch` | src/pages/withid/DetailsPage.js:44-51 | The record is always stored. The fetch completes exactly when `videos`, `recommendations` and `credits` are present. It then sets videos, photos, recommendations and cast from the record's fixed paths and clears `loading`. Otherwise it sets only the slices read before the failing dereference and stays loading. `Valid` is kept. |
| `Details.DetailsPage.Select` | src/pages/withid/DetailsPage.js:98-103 | Afterwards the selected tab is `index`. An update is issued exactly when `index` differs from the current tab, so selecting the current tab again changes nothing. |

## Left out

- The route parameters `type` and `id` are fixed per page (`kind` and `id` are constants of a `DetailsPage`). In the source they are read again on every render while the fetch runs only on mount. So after an in-place route change the slug and the meta URLs follow the new route, while the record, the four slices and the selected tab stay those of the first title. The model cannot show a page displaying one title under another title's slug.

- Render: draws the More Like This view whenever tab 4 is selected and a record is loaded, even when `recommended` is undefined and the view would throw (see `RecommendedTab`). A render-time throw, which unmounts the page, is not modelled.

- The network call, the async scheduling and the `await` are not modelled. The fetch is split at the `await`: the response is the argument of `CompleteFetch`.
- The API key from the environment is a parameter of `StartFetch`. An unset key prints as `undefined`.
- `API_URL` comes from a constants file that is not part of this model. It is a parameter of `RequestUrl`.
- The effect wiring is not modelled. A page is expected to call `StartFetch` once after mounting, and nothing enforces that.
- `DocumentMeta` and the social-sharing meta object (lines 69-93) are free-text templates with no logic.
- JSX, the spinner's and tabs' styling, and the props handed to each tab view are not modelled. Only which spinner, banner, highlight and view is drawn is modelled.
- The `parseInt` of the clicked element's id is not modelled. `Select` takes the index as an integer.
- JSON `null` is folded into "absent". A template literal would print a null `name`/`title` as `null`, while `Display` prints `undefined`.
- Fields of the record that are only handed to presentational components are not modelled: runtime, status, language, networks, seasons, collections, companies, keywords and crew.
- React's `key` prop on each card is not modelled.
- The navigation bar and every image base in the configuration file other than `img500` are not modelled: they hold no logic the page uses.
