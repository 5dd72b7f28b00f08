/** The detail page of one movie or series: the request it sends, the state it
    keeps while the response is awaited and after it arrives, the tab the
    visitor has selected, and what the page derives from that state (the
    document title, the backdrop image, the slug and which single view is
    drawn). */
module Details {
  import opened Js
  import opened Recommendations

  /** The site name shown in the browser tab. */
  const SiteName := "CineParadis"

  /** Base of the 500-pixel-wide image variant. */
  const Img500 := "https://image.tmdb.org/t/p/w500"

  /** The sub-resources the page asks the media database to embed in its response. */
  const AppendedResourceNames: seq<string> :=
    ["external_ids", "videos", "images", "recommendations", "credits", "collection", "keywords"]

  /** The `append_to_response` value: those names separated by commas. */
  const AppendToResponse: string := Join(AppendedResourceNames, ',')

  /** Number of tabs: Top Cast, Details, Photos, Videos, More Like This. */
  const TabCount := 5

  datatype Video = Video(id: string, key: string, site: string, kind: string)

  datatype Images = Images(backdrops: seq<string>, posters: seq<string>)

  datatype CastMember = CastMember(id: int, name: string, character: string, profilePath: Option<string>)

  /** A `{ results: [...] }` wrapper; the list itself may be missing. */
  datatype Page<T> = Page(results: Option<seq<T>>)

  datatype Credits = Credits(cast: Option<seq<CastMember>>)

  /** The composite record of one title; every embedded sub-object may be missing. */
  datatype ContentRecord = ContentRecord(
    id: int,
    name: Option<string>,
    title: Option<string>,
    backdropPath: Option<string>,
    videos: Option<Page<Video>>,
    images: Option<Images>,
    recommendations: Option<Page<Entry>>,
    credits: Option<Credits>)

  /** The five tab views, in tab order. */
  datatype Panel = CastPanel | FactsPanel | PhotosPanel | VideosPanel | RecommendationsPanel

  const TabPanels: seq<Panel> := [CastPanel, FactsPanel, PhotosPanel, VideosPanel, RecommendationsPanel]

  /** What the page draws: only the spinner while loading, otherwise the banner
      (when there is content), the highlight of each tab and the tab views. */
  datatype View = Loader | Detail(banner: bool, tabs: seq<bool>, panels: seq<Panel>)

  /** The three sub-objects the response handler dereferences without a guard. */
  predicate Complete(data: ContentRecord) {
    data.videos.Some? && data.recommendations.Some? && data.credits.Some?
  }

  // ---------------------------------------------------------------------------
  // Request and slug

  /** `type/id`, the page's own path. */
  function Slug(kind: string, id: string): (slug: string)
    ensures |slug| == |kind| + 1 + |id|
    ensures slug[..|kind|] == kind && slug[|kind|] == '/' && slug[|kind| + 1..] == id
  {
    kind + "/" + id
  }

  /** How the router reads a path back into its two segments: everything before
      the first slash, and everything after it. */
  function SplitSlug(path: string): Option<(string, string)> {
    if path == [] then None
    else if path[0] == '/' then Some(([], path[1..]))
    else match SplitSlug(path[1..])
      case None => None
      case Some(parts) => Some(([path[0]] + parts.0, parts.1))
  }

  lemma {:induction false} SlugRoundTrip(kind: string, id: string)
    requires '/' !in kind
    ensures SplitSlug(Slug(kind, id)) == Some((kind, id))
  {
    if kind == [] {
      assert Slug(kind, id) == ['/'] + id;
    } else {
      assert Slug(kind, id)[0] == kind[0];
      assert Slug(kind, id)[1..] == Slug(kind[1..], id);
      SlugRoundTrip(kind[1..], id);
      assert [kind[0]] + kind[1..] == kind;
    }
  }

  /** Different (type, id) pairs give different slugs. */
  lemma SlugInjective(kind1: string, id1: string, kind2: string, id2: string)
    requires '/' !in kind1 && '/' !in kind2
    requires Slug(kind1, id1) == Slug(kind2, id2)
    ensures kind1 == kind2 && id1 == id2
  {
  }

  /** The `api_key=...` query parameter; an unset key prints as "undefined". */
  function ApiKey(env: Option<string>): (param: string)
    ensures |param| >= 8 && param[..8] == "api_key="
    ensures env.Some? ==> param[8..] == env.value
    ensures env.None? ==> param[8..] == "undefined"
  {
    "api_key=" + Display(env)
  }

  /** The one request the page sends for its title. */
  function RequestUrl(apiUrl: string, kind: string, id: string, env: Option<string>): (url: string)
    ensures |url| > |apiUrl| + |Slug(kind, id)| + |AppendToResponse| + 1
    ensures url[..|apiUrl| + 1 + |Slug(kind, id)| + 1] == apiUrl + "/" + Slug(kind, id) + "?"
    ensures url[|url| - |AppendToResponse|..] == AppendToResponse
    ensures url[|apiUrl| + |Slug(kind, id)| + 2..] ==
      ApiKey(env) + "&language=en&append_to_response=" + AppendToResponse
  {
    var head := apiUrl + "/" + Slug(kind, id) + "?";
    var query := ApiKey(env) + "&language=en&append_to_response=";
    var tail := AppendToResponse;
    assert (head + query + tail)[..|head|] == head;
    assert (head + query + tail)[|head + query|..] == tail;
    assert (head + query + tail)[|head|..] == query + tail;
    head + query + tail
  }

  /** `s.split(sep)`. */
  function Split(s: string, sep: char): (parts: seq<string>)
    ensures |parts| >= 1
    ensures sep !in s ==> parts == [s]
  {
    if s == [] then [[]]
    else
      var rest := Split(s[1..], sep);
      assert [s[0]] + s[1..] == s;
      if s[0] == sep then [[]] + rest else [[s[0]] + rest[0]] + rest[1..]
  }

  lemma {:induction false} SplitAfterSeparator(a: string, b: string, sep: char)
    requires sep !in a
    ensures Split(a + [sep] + b, sep) == [a] + Split(b, sep)
  {
    var s := a + [sep] + b;
    if a == [] {
      assert s[1..] == b;
    } else {
      assert s[1..] == a[1..] + [sep] + b;
      SplitAfterSeparator(a[1..], b, sep);
      assert [a[0]] + a[1..] == a;
    }
  }

  /** `parts.join(sep)`. */
  function Join(parts: seq<string>, sep: char): string {
    if parts == [] then []
    else if |parts| == 1 then parts[0]
    else parts[0] + [sep] + Join(parts[1..], sep)
  }

  /** Splitting a joined list gives the list back when no part holds the separator. */
  lemma {:induction false} SplitJoin(parts: seq<string>, sep: char)
    requires |parts| >= 1
    requires forall p :: p in parts ==> sep !in p
    ensures Split(Join(parts, sep), sep) == parts
  {
    if |parts| > 1 {
      SplitJoin(parts[1..], sep);
      SplitAfterSeparator(parts[0], Join(parts[1..], sep), sep);
      assert [parts[0]] + parts[1..] == parts;
    }
  }

  /** The request embeds every sub-resource the response handler reads. */
  lemma AppendedResources()
    ensures Split(AppendToResponse, ',') == AppendedResourceNames
    ensures forall r :: r in ["videos", "images", "recommendations", "credits"] ==>
      r in Split(AppendToResponse, ',')
  {
    SplitJoin(AppendedResourceNames, ',');
  }

  // ---------------------------------------------------------------------------
  // Derivations from the loaded record

  /** `content.name || content.title` as a template literal prints it. */
  function DisplayName(c: ContentRecord): (name: string)
    ensures Truthy(c.name) ==> name == c.name.value
    ensures !Truthy(c.name) && c.title.Some? ==> name == c.title.value
    ensures !Truthy(c.name) && c.title.None? ==> name == "undefined"
  {
    Display(Or(c.name, c.title))
  }

  /** The document title: the title's name followed by the site name once a
      record is loaded, the site name alone before. */
  function DocumentTitle(content: Option<ContentRecord>): (title: string)
    ensures content.None? ==> title == SiteName
    ensures content.Some? && Truthy(content.value.name) ==>
      title == content.value.name.value + " - " + SiteName
    ensures content.Some? && !Truthy(content.value.name) && content.value.title.Some? ==>
      title == content.value.title.value + " - " + SiteName
    ensures content.Some? && !Truthy(content.value.name) && content.value.title.None? ==>
      title == "undefined - " + SiteName
    ensures |title| >= |SiteName| && title[|title| - |SiteName|..] == SiteName
  {
    if content.Some? then DisplayName(content.value) + " - " + SiteName else SiteName
  }

  /** The backdrop image URL: the 500-pixel base followed by `backdrop_path`,
      or the empty string when there is no usable path. */
  function Backdrop(content: Option<ContentRecord>): (url: string)
    ensures url == "" <==> !(content.Some? && Truthy(content.value.backdropPath))
    ensures url != "" ==> |url| > |Img500| && url[..|Img500|] == Img500
    ensures url != "" ==> url[|Img500|..] == content.value.backdropPath.value
  {
    if content.Some? && Truthy(content.value.backdropPath)
    then Img500 + content.value.backdropPath.value
    else ""
  }

  /** Which tab is drawn highlighted: the one whose index equals `active`. */
  function Highlights(active: int): (tabs: seq<bool>)
    ensures |tabs| == TabCount
    ensures forall j, k :: 0 <= j < k < TabCount ==> !(tabs[j] && tabs[k])
    ensures forall k :: 0 <= k < TabCount ==> (tabs[k] <==> active == k)
    ensures (exists k :: 0 <= k < TabCount && tabs[k]) <==> 0 <= active < TabCount
  {
    var tabs := [active == 0, active == 1, active == 2, active == 3, active == 4];
    assert 0 <= active < TabCount ==> tabs[active];
    tabs
  }

  /** The five guarded tab views, each drawn when `active` is its index and a
      record is loaded. */
  function Panels(active: int, hasContent: bool): (panels: seq<Panel>)
    ensures |panels| <= 1
    ensures forall k :: 0 <= k < TabCount ==> (TabPanels[k] in panels <==> active == k && hasContent)
  {
    (if active == 0 && hasContent then [CastPanel] else [])
    + (if active == 1 && hasContent then [FactsPanel] else [])
    + (if active == 2 && hasContent then [PhotosPanel] else [])
    + (if active == 3 && hasContent then [VideosPanel] else [])
    + (if active == 4 && hasContent then [RecommendationsPanel] else [])
  }

  /** What the page draws for a given state. */
  function Render(loading: bool, content: Option<ContentRecord>, active: int): (v: View)
    ensures v.Loader? <==> loading
    ensures v.Detail? ==> v.banner == content.Some?
    ensures v.Detail? ==> |v.tabs| == TabCount && forall k :: 0 <= k < TabCount ==> (v.tabs[k] <==> active == k)
    ensures v.Detail? ==> |v.panels| <= 1
    ensures v.Detail? ==> forall k :: 0 <= k < TabCount ==>
      (TabPanels[k] in v.panels <==> active == k && content.Some?)
  {
    if loading then Loader else Detail(content.Some?, Highlights(active), Panels(active, content.Some?))
  }

  // ---------------------------------------------------------------------------
  // Page state

  class DetailsPage {
    /** The route parameters `type` ("movie" or "tv") and `id`. */
    const kind: string
    const id: string

    var content: Option<ContentRecord>
    var videos: Option<seq<Video>>
    var photos: Option<Images>
    var recommended: Option<seq<Entry>>
    var credits: Option<seq<CastMember>>
    var loading: bool
    var active: int

    /** The slices kept beside the record are the ones read from it. */
    ghost predicate SlicesOf(c: ContentRecord)
      reads this
    {
      Complete(c) &&
      videos == c.videos.value.results &&
      photos == c.images &&
      recommended == c.recommendations.value.results &&
      credits == c.credits.value.cast
    }

    /** Whenever a record is shown, its four slices come from that same record. */
    ghost predicate Valid()
      reads this
    {
      !loading && content.Some? ==> SlicesOf(content.value)
    }

    /** Mounting the page: nothing loaded, not loading, first tab selected. */
    constructor (kind: string, id: string)
      ensures Valid()
      ensures this.kind == kind && this.id == id
      ensures content.None? && videos.None? && photos.None? && recommended.None? && credits.None?
      ensures !loading && active == 0
    {
      this.kind := kind;
      this.id := id;
      content, videos, photos, recommended, credits := None, None, None, None, None;
      loading := false;
      active := 0;
    }

    /** The part of the fetch before the response is awaited: raise the loading
        flag and form the request. */
    method StartFetch(apiUrl: string, env: Option<string>) returns (url: string)
      requires Valid()
      modifies this`loading
      ensures Valid()
      ensures loading
      ensures url == RequestUrl(apiUrl, kind, id, env)
    {
      loading := true;
      url := RequestUrl(apiUrl, kind, id, env);
    }

    /** The part of the fetch after the response arrives. The record is stored
        first; each slice is then read from it in turn, and reading through a
        missing `videos`, `recommendations` or `credits` object throws, which
        abandons the remaining steps and leaves the page loading. */
    method CompleteFetch(data: ContentRecord) returns (completed: bool)
      requires Valid() && loading
      modifies this`content, this`videos, this`photos, this`recommended, this`credits, this`loading
      ensures Valid()
      ensures completed <==> Complete(data)
      ensures content == Some(data)
      ensures videos == if data.videos.Some? then data.videos.value.results else old(videos)
      ensures photos == if data.videos.Some? then data.images else old(photos)
      ensures recommended ==
        if data.videos.Some? && data.recommendations.Some? then data.recommendations.value.results
        else old(recommended)
      ensures credits == if completed then data.credits.value.cast else old(credits)
      ensures loading == !completed
      ensures completed ==> SlicesOf(data)
    {
      content := Some(data);
      if data.videos.None? {
        return false;
      }
      videos := data.videos.value.results;
      photos := data.images;
      if data.recommendations.None? {
        return false;
      }
      recommended := data.recommendations.value.results;
      if data.credits.None? {
        return false;
      }
      credits := data.credits.value.cast;
      loading := false;
      completed := true;
    }

    /** A click on tab `index`: the selection changes, and an update is issued,
        only when `index` is not the current selection. */
    method Select(index: int) returns (updated: bool)
      requires Valid()
      modifies this`active
      ensures Valid()
      ensures updated <==> index != old(active)
      ensures active == index
    {
      updated := index != active;
      if updated {
        active := index;
      }
    }
  }

  /** A page mounted, fetched and browsed, from the visitor's point of view. */
  method LoadThenBrowse(apiUrl: string, env: Option<string>, data: ContentRecord)
    requires Complete(data)
  {
    var page := new DetailsPage("movie", "550");
    assert Render(page.loading, page.content, page.active) == Detail(false, Highlights(0), []);
    var url := page.StartFetch(apiUrl, env);
    assert Render(page.loading, page.content, page.active) == Loader;
    var completed := page.CompleteFetch(data);
    assert completed;
    var v := Render(page.loading, page.content, page.active);
    assert v.Detail? && v.banner && TabPanels[0] in v.panels;
    assert page.recommended == data.recommendations.value.results;
    var first := page.Select(2);
    var again := page.Select(2);
    assert first && !again && page.active == 2;
    v := Render(page.loading, page.content, page.active);
    assert TabPanels[2] in v.panels && |v.panels| == 1;
  }

  /** A response lacking one of the dereferenced sub-objects leaves only the
      spinner on screen, whatever tab is then selected. */
  method BrokenResponse(apiUrl: string, data: ContentRecord, index: int)
    requires !Complete(data)
  {
    var page := new DetailsPage("tv", "1399");
    var url := page.StartFetch(apiUrl, None);
    var completed := page.CompleteFetch(data);
    var updated := page.Select(index);
    assert page.content == Some(data);
    assert Render(page.loading, page.content, page.active) == Loader;
  }
}
