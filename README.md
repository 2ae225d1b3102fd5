# gc-studio content site — a Dafny model

gc-studio is a Next.js marketing site whose pages are assembled from JSON
content. A catch-all route turns the URL's path segments into a slug
(`RefineSlug`). It fetches the page document for that slug from a small
Express content server (`server.js`). It then renders the document's
widget list through `WidgetBlocks`, which picks one React component per
widget from a fixed table (`Block`/`setComponent`). The widgets the site
renders are modelled here. Each one takes optional content data, fills in
defaults with JavaScript's `||`, normalises image paths, and lays out what
it shows.

The model keeps the source's structure: one Dafny module per source file,
plus three shared modules.

- `Wrappers` holds `Option`.
- `JsStrings` holds JavaScript's string operations over ASCII: trim,
  split, join, `startsWith`, a first-occurrence `replace`, `indexOf`,
  case mapping and the decimal rendering of a number in a template string.
- `ImagePath` holds the image-path normaliser that several widgets repeat.

Code that computes values is modelled as functions and lemmas. Code that
changes state becomes classes whose methods state the new state:

- the content server's response object;
- the pagination hook;
- the blog list's "Load More" state;
- the FAQ accordion;
- the service tabs;
- the contact form.

`InnerBanner`'s breadcrumb loop is a method with a loop invariant, proved
equal to a specification function.

## Model

| member | source | states |
|---|---|---|
| ContentServer.CutQuery | server.js:19 | the result is the part of the path before the first "?", holds no "?", and is the whole path when there is no "?" |
| ContentServer.SlugFromPath | server.js:16-22 | the slug holds no "?" and does not end in "/" |
| ContentServer.StripTrailingSlashes | server.js:22 | the result is a prefix of the input that does not end in "/", and everything removed was "/" |
| ContentServer.Resolve | server.js:12-33 | a document is found exactly when the slug is non-empty and a key of the table, and it is that key's document; otherwise 404 |
| ContentServer.Response.constructor | server.js:12-33 | a new response has no headers, status 200 and no body |
| ContentServer.Response.Header | server.js:6-7 | sets one header and leaves the status and body unchanged |
| ContentServer.Response.SendStatus | server.js:25 | sets the status and sends no document; the headers set by the app are unchanged |
| ContentServer.Response.Send | server.js:30 | sends the document with the current status; the headers set by the app are unchanged |
| ContentServer.Cors | server.js:5-9 | adds `Access-Control-Allow-Origin: *` and the allowed-headers list, and changes nothing else |
| ContentServer.HandleGeneral | server.js:12-33 | the response carries the document of `Resolve`, or status 404 when `Resolve` finds none; the headers set by the app are unchanged |
| ContentServer.Serve | server.js:5-33 | every response carries the CORS headers, with status 200 and the document, or 404 and no body, as `Resolve` decides |
| ContentServer.SlugOfApiPath | server.js:16-22 | for a path under `/api/general/`, the slug is the rest of the path with the query cut and the trailing slashes removed |
| ContentServer.SplitFirstOfConcat | server.js:19 | the first "?"-piece of a concatenation comes from the left part when that part holds a "?" |
| ContentServer.NormalisationIdempotent | server.js:19-22 | cutting the query and stripping trailing slashes a second time changes nothing |
| ContentServer.TrailingSlashNormalised | server.js:19-22 | appending "/" leaves the normalised slug unchanged |
| ContentServer.TrailingSlashIgnored | server.js:22-32 | a trailing "/" never changes the outcome |
| ContentServer.QueryIgnored | server.js:19-32 | a query string never changes the outcome (Express's `req.path` already holds none, so this guards only a path that reaches the handler with one) |
| ContentServer.NestedSlugKeptWhole | server.js:16-22 | inner slashes are kept, so a nested slug is looked up whole |
| ContentServer.EmptySlugNotFound | server.js:24-26 | the bare prefix, or the prefix followed only by slashes, is 404 whatever the table holds |
| ContentServer.LookupScenario | server.js:12-33 | a stored slug is found bare, with a trailing "/" and with a query; a slug that is not stored is 404 |
| RefineSlug.RefineSlug | src/utilities/RefineSlug.ts:1-6 | there is a slug exactly when the segment list is present and non-empty, and it is the segments joined by "/" |
| RefineSlug.SingleSegment | src/utilities/RefineSlug.ts:1-6 | a single segment is the slug itself |
| RefineSlug.RefineSlugRoundTrip | src/utilities/RefineSlug.ts:1-6 | splitting the slug on "/" gives back segments that contain no "/" |
| RefineSlug.RefineSlugLength | src/utilities/RefineSlug.ts:1-6 | the slug's length is the segments' total length plus one separator between each pair |
| RefineSlug.NoNormalisation | src/utilities/RefineSlug.ts:1-6 | nothing is normalised: an empty segment leaves a trailing "/", a nested route is kept whole, and no segments give no slug |
| WidgetBlock.SetComponent | src/utilities/WidgetBlock/Block.tsx:63 | a widget type that is a key of the table selects that entry; any other type, a missing one included, selects the default component |
| WidgetBlock.TableSelectsOwnComponent | src/utilities/WidgetBlock/Block.tsx:38-62 | every table entry is a real component registered under its own name |
| WidgetBlock.RegisteredNameInjective | src/utilities/WidgetBlock/Block.tsx:38-62 | two components registered under the same name are the same component |
| WidgetBlock.RegisteredNameIsKey | src/utilities/WidgetBlock/Block.tsx:38-62 | every component other than the default is registered under a key of the table |
| WidgetBlock.EveryComponentRegistered | src/utilities/WidgetBlock/Block.tsx:38-62 | every component other than the default is reachable from exactly its own key |
| WidgetBlock.TableInjective | src/utilities/WidgetBlock/Block.tsx:38-62 | different keys select different components |
| WidgetBlock.FallbackExactlyWhenUnknown | src/utilities/WidgetBlock/Block.tsx:63 | the default component is chosen if and only if the type is not a key of the table |
| WidgetBlock.MissingTypeSelectsDefault | src/utilities/WidgetBlock/Block.tsx:63 | a missing or empty type selects the default component |
| WidgetBlock.SelectionDependsOnlyOnType | src/utilities/WidgetBlock/Block.tsx:63 | two widgets with the same type get the same component |
| WidgetBlock.Block | src/utilities/WidgetBlock/Block.tsx:66-73 | renders the selected component with the whole widget as its props |
| WidgetBlocks.KeyFor | src/utilities/WidgetBlock/index.tsx:19 | a truthy id is the key; otherwise the key is `widget-<index>` |
| WidgetBlocks.WidgetBlocks | src/utilities/WidgetBlock/index.tsx:14-24 | one block per widget, in order, each with the widget as props, its selected component and its key; no widgets means none |
| WidgetBlocks.NoWidgetsNoBlocks | src/utilities/WidgetBlock/index.tsx:15 | a missing or empty widget list renders nothing |
| WidgetBlocks.PositionalKeysDistinct | src/utilities/WidgetBlock/index.tsx:19 | different positions give different positional keys |
| WidgetBlocks.UnkeyedWidgetsDistinct | src/utilities/WidgetBlock/index.tsx:17-21 | widgets without a truthy id get pairwise distinct keys |
| WidgetBlocks.FalsyIdUsesPosition | src/utilities/WidgetBlock/index.tsx:19 | an id of 0 or "" falls back to the positional key |
| WidgetBlocks.ExplicitIdCanShadowPosition | src/utilities/WidgetBlock/index.tsx:19 | an explicit id `widget-1` collides with the positional key of an id-less second widget |
| Pagination.TotalPages | src/logic/usePagination.ts:15 | the fewest pages that hold all items: enough pages, and one page fewer would not be enough |
| Pagination.PageSlice | src/logic/usePagination.ts:17-22 | a page holds at most `itemsPerPage` items |
| Pagination.PageNonEmptyIffInRange | src/logic/usePagination.ts:15-22 | a page shows items if and only if it is one of pages 1 to `totalPages` |
| Pagination.FirstPages | src/logic/usePagination.ts:17-22 | lists pages 1 to `count`, one entry per page |
| Pagination.FirstPagesConcat | src/logic/usePagination.ts:17-22 | the first `count` pages, one after another, are the first `count * itemsPerPage` items |
| Pagination.PagesReproduceData | src/logic/usePagination.ts:15-22 | pages 1 to `totalPages`, one after another, are exactly the data |
| Pagination.Paginator.constructor | src/logic/usePagination.ts:13-14 | starts on page 1 with nothing shown |
| Pagination.Paginator.SyncCurrentData | src/logic/usePagination.ts:17-22 | the data shown becomes the current page's slice |
| Pagination.Paginator.GoToPage | src/logic/usePagination.ts:24-32 | moves to the page only when it is between 1 and `totalPages`; the page always stays in range |
| Pagination.Paginator.NextPage | src/logic/usePagination.ts:51-59 | moves forward unless already on the last page |
| Pagination.Paginator.PrevPage | src/logic/usePagination.ts:61-69 | moves back unless already on page 1 |
| BlogList.Batch | src/widgets/BlogList/BlogList.tsx:33-35 | a batch holds at most 8 posts, and at least one while posts remain |
| BlogList.LoadMoreStep | src/widgets/BlogList/BlogList.tsx:87-91 | one click keeps the shown posts and adds at most 8; from a prefix of the list it gives the prefix 8 longer, or the whole list |
| BlogList.ShownAfter | src/widgets/BlogList/BlogList.tsx:33-91 | the posts shown after `n` clicks are always a prefix of the list |
| BlogList.ShownAfterIsPrefix | src/widgets/BlogList/BlogList.tsx:87-93 | after `n` clicks exactly the first `8(n+1)` posts, or all of them, are shown, in order |
| BlogList.EveryPostReachable | src/widgets/BlogList/BlogList.tsx:87-93 | enough clicks show every post |
| BlogList.NormalizeBlogImage | src/widgets/BlogList/BlogList.tsx:96-105 | a blank image gives `/images/blog1.png`; any other image gives a normalised path |
| BlogList.NormalizeBlog | src/widgets/BlogList/BlogList.tsx:108-111 | only the image changes, and it becomes a non-empty path |
| BlogList.NormalizeAll | src/widgets/BlogList/BlogList.tsx:108-111 | every shown post is normalised, in order |
| BlogList.LayoutOf | src/widgets/BlogList/BlogList.tsx:114-116 | there is a featured post when one post is shown, and a second post when two are |
| BlogList.LayoutPartitionsShown | src/widgets/BlogList/BlogList.tsx:114-116 | featured, second and grid together are exactly the shown posts, normalised, in order |
| BlogList.FeaturedHref | src/widgets/BlogList/BlogList.tsx:126 | the featured post links to its own link, or to "#" |
| BlogList.LoadMoreText | src/widgets/BlogList/BlogList.tsx:193-202 | the label is the given text when it is non-empty, else "Load More Articles" |
| BlogList.ShowsLoadMoreLink | src/widgets/BlogList/BlogList.tsx:205-214 | the link shows if and only if the button is hidden and a link is configured |
| BlogList.BlogListState.constructor | src/widgets/BlogList/BlogList.tsx:33-41 | shows the first batch, and shows the button exactly when more than 8 posts exist |
| BlogList.BlogListState.HandleLoadMore | src/widgets/BlogList/BlogList.tsx:87-93 | appends the next batch, hides the button once every post is shown, and keeps the shown posts a prefix of the list |
| BlogList.BlogListState.Rerender | src/widgets/BlogList/BlogList.tsx:33-41 | resets to the first batch only when the list's length changes, and otherwise keeps the old shown posts |
| BlogList.SameLengthKeepsStalePosts | src/widgets/BlogList/BlogList.tsx:38-41 | mounting with `[a]` and re-rendering with `[b]` keeps `a` on screen, so the state's prefix invariant no longer holds |
| ImagePath.Rooted | src/widgets/BlogList/BlogList.tsx:104 | a path that starts with "/" is unchanged; any other path gets "/" in front |
| ImagePath.NormalizeImagePath | src/widgets/BlogList/BlogList.tsx:96-105 | a blank path gives the fallback; an external URL is kept trimmed; any other path is trimmed and then rooted by `Rooted` |
| ImagePath.NormalizeFixpoints | src/widgets/BlogList/BlogList.tsx:96-105 | a path is left unchanged if and only if it is already normal |
| ImagePath.NormalizeIdempotent | src/widgets/BlogList/BlogList.tsx:96-105 | normalising twice is normalising once |
| ImagePath.IsExternalUrl | src/widgets/HomeBanner/HomeBanner.tsx:33-37 | true if and only if the path is not blank and, trimmed, starts with `http://` or `https://` |
| ImagePath.NormalizeLocalImagePath | src/widgets/HomeBanner/HomeBanner.tsx:40-52 | a blank path gives the fallback, an external URL gives "", and any other path gives a rooted normal path |
| ImagePath.LocalVariantAgrees | src/widgets/HomeBanner/HomeBanner.tsx:40-52 | the local variant agrees with the shared normaliser except on external URLs |
| InnerBanner.Title | src/widgets/InnerBanner/InnerBanner.tsx:16 | the given title when it is non-empty, else "Page Title" |
| InnerBanner.BackgroundStyle | src/widgets/InnerBanner/InnerBanner.tsx:58-65 | a style exactly when there is a background image, and it is `url(<image>)` |
| InnerBanner.NonEmpty | src/widgets/InnerBanner/InnerBanner.tsx:32 | keeps only non-empty pieces, each taken from the input |
| InnerBanner.NonEmptyConcat | src/widgets/InnerBanner/InnerBanner.tsx:32 | filtering distributes over concatenation |
| InnerBanner.NonEmptyKeepsNonEmpty | src/widgets/InnerBanner/InnerBanner.tsx:32 | a list without empty pieces is unchanged |
| InnerBanner.Segments | src/widgets/InnerBanner/InnerBanner.tsx:32 | every segment is non-empty and free of "/" |
| InnerBanner.RepeatedSlashIgnored | src/widgets/InnerBanner/InnerBanner.tsx:32 | "//" splits the path as "/" does |
| InnerBanner.TrailingSlashIgnored | src/widgets/InnerBanner/InnerBanner.tsx:32 | a trailing "/" adds no segment |
| InnerBanner.Capitalize | src/widgets/InnerBanner/InnerBanner.tsx:42 | upper-cases the first character and keeps the rest |
| InnerBanner.CapitalizeAll | src/widgets/InnerBanner/InnerBanner.tsx:42 | capitalises every word, in order |
| InnerBanner.Label | src/widgets/InnerBanner/InnerBanner.tsx:40-43 | a segment without a hyphen is one word, so its label is that word capitalised; the general case is `LabelMatchesByChar` |
| InnerBanner.LabelByChar | src/widgets/InnerBanner/InnerBanner.tsx:40-43 | the label has as many characters as the segment |
| InnerBanner.LabelMatchesByChar | src/widgets/InnerBanner/InnerBanner.tsx:40-43 | split-on-hyphen, capitalise, join-with-space equals the character-wise rule: a hyphen becomes a space, and the first letter of each word is upper-cased |
| InnerBanner.LabelShape | src/widgets/InnerBanner/InnerBanner.tsx:40-43 | the label keeps the segment's length and holds no hyphen |
| InnerBanner.PathOfSnoc | src/widgets/InnerBanner/InnerBanner.tsx:35-37 | each step appends "/" and the segment to the current path |
| InnerBanner.PathOfIsJoin | src/widgets/InnerBanner/InnerBanner.tsx:35-37 | the accumulated path is "/" followed by the segments joined by "/" |
| InnerBanner.SplitOfPath | src/widgets/InnerBanner/InnerBanner.tsx:32-37 | splitting an accumulated path on "/" gives "" followed by the segments |
| InnerBanner.PathOfRoundTrip | src/widgets/InnerBanner/InnerBanner.tsx:32-37 | the segments of an accumulated path are the segments it was built from |
| InnerBanner.Trail | src/widgets/InnerBanner/InnerBanner.tsx:34-51 | crumb `j` is segment `j`'s label linked to the path of segments 0 to `j` |
| InnerBanner.TrailSnoc | src/widgets/InnerBanner/InnerBanner.tsx:34-51 | one more segment adds exactly one crumb at the end |
| InnerBanner.RootHasNoSegments | src/widgets/InnerBanner/InnerBanner.tsx:27-32 | "/" has no segments |
| InnerBanner.Crumbs | src/widgets/InnerBanner/InnerBanner.tsx:20-54 | the Home crumb followed by one crumb per segment |
| InnerBanner.Breadcrumbs | src/widgets/InnerBanner/InnerBanner.tsx:20-54 | a path's trail is the Home crumb followed by one crumb per non-empty segment |
| InnerBanner.FormatLabel | src/widgets/InnerBanner/InnerBanner.tsx:40-43 | the split/capitalise/join label equals the character-wise label |
| InnerBanner.GenerateBreadcrumbs | src/widgets/InnerBanner/InnerBanner.tsx:20-54 | the loop builds the Home crumb followed by one crumb per segment, each linked to the path so far |
| InnerBanner.CrumbHref | src/widgets/InnerBanner/InnerBanner.tsx:24-37 | crumb `k` links to "/" for Home and to the first `k` segments' path otherwise |
| InnerBanner.HrefsGrow | src/widgets/InnerBanner/InnerBanner.tsx:35-37 | each crumb's link is strictly longer than the one before |
| InnerBanner.HrefsDistinct | src/widgets/InnerBanner/InnerBanner.tsx:77-78 | crumb links are pairwise distinct, so they are valid React keys |
| InnerBanner.LastHrefIsWholePath | src/widgets/InnerBanner/InnerBanner.tsx:35-37 | the last crumb links to the whole normalised path |
| InnerBanner.Render | src/widgets/InnerBanner/InnerBanner.tsx:77-95 | every crumb is shown with its label; only the last one is plain text, and the others link to their paths |
| InnerBanner.HomeShowsOnlyHome | src/widgets/InnerBanner/InnerBanner.tsx:27-29 | on "/" the trail is only "Home", as the current page |
| FaqSection.Texts | src/widgets/FAQSection/FAQSection.tsx:33-40 | each text is the given one when non-empty, else "FAQ", "Everything You Need To Know", the default description, "Didn't Find Your Answer?", the default CTA description and "Contact Us"; the CTA link is the given one or `/contact`; the FAQ list is the given one or empty |
| FaqSection.ToggledIndex | src/widgets/FAQSection/FAQSection.tsx:42-44 | clicking the open question closes it; clicking any other opens that one |
| FaqSection.Expanded | src/widgets/FAQSection/FAQSection.tsx:162-171 | question `i` is expanded if and only if `i` is the open index |
| FaqSection.AtMostOneExpanded | src/widgets/FAQSection/FAQSection.tsx:162-171 | at most one question is expanded |
| FaqSection.ToggleOpensOrCloses | src/widgets/FAQSection/FAQSection.tsx:42-44 | after a click the clicked question is open exactly when it was closed, and every other question is closed |
| FaqSection.ToggleTwice | src/widgets/FAQSection/FAQSection.tsx:42-44 | two clicks on the open question close and reopen it; two clicks on any other question leave every question closed |
| FaqSection.Accordion.constructor | src/widgets/FAQSection/FAQSection.tsx:31 | the first question starts open |
| FaqSection.Accordion.ToggleFaq | src/widgets/FAQSection/FAQSection.tsx:42-44 | the open index becomes the toggled index |
| ServiceDetailAbout.ActiveContent | src/widgets/ServiceDetailAbout/ServiceDetailAbout.tsx:104 | the active tab's content, or none when the index is out of range |
| ServiceDetailAbout.TabButtons | src/widgets/ServiceDetailAbout/ServiceDetailAbout.tsx:113-144 | one button per tab with its caption; exactly the active one is selected, and each controls its own panel |
| ServiceDetailAbout.SelectedExactlyActive | src/widgets/ServiceDetailAbout/ServiceDetailAbout.tsx:118 | at most one button is selected, and one is when the active index is in range |
| ServiceDetailAbout.Shown | src/widgets/ServiceDetailAbout/ServiceDetailAbout.tsx:150-185 | an optional text is shown exactly when it is non-empty |
| ServiceDetailAbout.ShownItems | src/widgets/ServiceDetailAbout/ServiceDetailAbout.tsx:174 | the item list shows exactly when present and non-empty |
| ServiceDetailAbout.RenderPanel | src/widgets/ServiceDetailAbout/ServiceDetailAbout.tsx:150-185 | the panel shows exactly when the active tab has content, with id `tab-panel-<i>`, labelled by `tab-<i>`; its title, description, body and items each show exactly when non-empty |
| ServiceDetailAbout.PanelMatchesSelectedTab | src/widgets/ServiceDetailAbout/ServiceDetailAbout.tsx:113-185 | the shown panel belongs to the selected button: the button controls it and it is labelled by the button |
| ServiceDetailAbout.NoTabsNoPanel | src/widgets/ServiceDetailAbout/ServiceDetailAbout.tsx:32-33 | no tabs give no buttons and no panel |
| ServiceDetailAbout.TabsState.constructor | src/widgets/ServiceDetailAbout/ServiceDetailAbout.tsx:33 | the first tab starts active |
| ServiceDetailAbout.TabsState.HandleTabClick | src/widgets/ServiceDetailAbout/ServiceDetailAbout.tsx:100-102 | the clicked tab becomes active |
| ServiceDetailAbout.ClickShowsTab | src/widgets/ServiceDetailAbout/ServiceDetailAbout.tsx:100-118 | after a click on tab `i` the panel shows tab `i`'s content and only button `i` is selected |
| HomeBanner.NextSlideIndex | src/widgets/HomeBanner/HomeBanner.tsx:57-61 | the next index is in range; it wraps from the last slide to 0, and it is 0 with no swiper or no slides |
| HomeBanner.NextIndexCycles | src/widgets/HomeBanner/HomeBanner.tsx:57-61 | starting from slide 0, `count` steps visit the slides in order and return to 0 |
| HomeBanner.ThumbnailSrc | src/widgets/HomeBanner/HomeBanner.tsx:66 | the thumbnail when it is non-empty, else the background image |
| HomeBanner.LocalThumbnailPath | src/widgets/HomeBanner/HomeBanner.tsx:68 | a non-empty local path starts with "/" |
| HomeBanner.HasThumbnailImage | src/widgets/HomeBanner/HomeBanner.tsx:66-69 | a preview shows if and only if the source is neither blank nor external, and then its path is normal |
| HomeBanner.Render | src/widgets/HomeBanner/HomeBanner.tsx:54-124 | nothing renders without slides; otherwise every slide renders with its background from `SlideBackground`, and the preview shows the next slide's local thumbnail path exactly when it has a local image |
| HomeBanner.SlideBackground | src/widgets/HomeBanner/HomeBanner.tsx:117-124 | a blank or external background draws `none`; a local one draws `url(<path>)` with the path the shared normaliser gives |
| HomeBanner.ExternalBackgroundIsNone | src/widgets/HomeBanner/HomeBanner.tsx:117-124 | an external background draws `none`, although the shared normaliser would keep the URL |
| HomeBanner.IsThumbnailExternal | src/widgets/HomeBanner/HomeBanner.tsx:67 | a missing source counts as external; a present one is external exactly when its trimmed form is an http(s) URL |
| HomeBanner.ExternalThumbnailHidesPreview | src/widgets/HomeBanner/HomeBanner.tsx:66-69 | an external thumbnail hides the preview, even when the background image is local |
| BlogDetailBanner.MainImage | src/widgets/BlogDetailBanner/BlogDetailBanner.tsx:154-165 | the main image is always a non-empty normal path, and the fallback when none is given |
| BlogDetailBanner.DisplayTags | src/widgets/BlogDetailBanner/BlogDetailBanner.tsx:168 | non-empty tags are shown, else the categories, else nothing |
| BlogDetailBanner.Platforms | src/widgets/BlogDetailBanner/BlogDetailBanner.tsx:173 | the given platforms, else facebook, twitter, linkedin and copy |
| BlogDetailBanner.ShareUrl | src/widgets/BlogDetailBanner/BlogDetailBanner.tsx:175-193 | the URL is empty exactly for a platform without a template |
| BlogDetailBanner.ShareUrlCarriesUrl | src/widgets/BlogDetailBanner/BlogDetailBanner.tsx:175-193 | every share URL contains the encoded page URL, and every one except twitter's ends with it |
| BlogDetailBanner.ShareUrlCarriesTitle | src/widgets/BlogDetailBanner/BlogDetailBanner.tsx:175-193 | the twitter, whatsapp and email URLs contain the encoded title; the facebook and linkedin URLs do not depend on it |
| BlogDetailBanner.PlatformLabel | src/widgets/BlogDetailBanner/BlogDetailBanner.tsx:249-266 | Facebook, Twitter, LinkedIn, WhatsApp and Email for the five share platforms; "Copied!" or "Copy Link" for copy (a branch the render never reaches); "" for anything else |
| BlogDetailBanner.PlatformLabelsDistinct | src/widgets/BlogDetailBanner/BlogDetailBanner.tsx:249-266 | two different known platforms never get the same label |
| BlogDetailBanner.RenderHeader | src/widgets/BlogDetailBanner/BlogDetailBanner.tsx:170-350 | the title heading and the description show exactly when truthy, with their values; the share row is `ShareItems` of the platforms with the title, or "" without one, as share title |
| BlogDetailBanner.UntitledShareCarriesEmptyTitle | src/widgets/BlogDetailBanner/BlogDetailBanner.tsx:172-186 | without a title, the WhatsApp link carries the encoding of "" before the page URL |
| BlogDetailBanner.ShareItems | src/widgets/BlogDetailBanner/BlogDetailBanner.tsx:314-353 | one item per platform, in order; copy is a button labelled "Link copied!" or "Copy link", and every other platform is a link to its share URL with its label |
| BlogDetailBanner.DefaultLinksNonEmpty | src/widgets/BlogDetailBanner/BlogDetailBanner.tsx:173-193 | the default platforms give three non-empty links and one copy button |
| BlogDetailBanner.AltThrowsWithoutData | src/widgets/BlogDetailBanner/BlogDetailBanner.tsx:356-361 | with no data the image still renders, and reading its alt text throws |
| BlogDetailBanner.ImageAltAsWritten | src/widgets/BlogDetailBanner/BlogDetailBanner.tsx:361 | as drawn: no alt text (the render throws) exactly without data; otherwise the title, or "Blog Image" |
| BlogDetailBanner.ImageAlt | src/widgets/BlogDetailBanner/BlogDetailBanner.tsx:361 | the alt text is the title when there is one, else "Blog Image" |
| BlogDetailBanner.ImageAltAgrees | src/widgets/BlogDetailBanner/BlogDetailBanner.tsx:356-361 | with data, the corrected alt text is the one the component shows |
| BlogDetailContent.HeadingTagFor | src/widgets/BlogDetailContent/BlogDetailContent.tsx:80 | level 3 gives h3, level 4 gives h4, and anything else gives h2 |
| BlogDetailContent.ImageSrcIsNormalised | src/widgets/BlogDetailContent/BlogDetailContent.tsx:128-133 | the item renderer's own path rule agrees with the shared normaliser on every non-blank path |
| BlogDetailContent.RenderItem | src/widgets/BlogDetailContent/BlogDetailContent.tsx:77-152 | dispatches on the item type: heading, paragraph, list (absent items are none), and image (nothing when blank, else the item's image through the shared normaliser, with its alt text or "Blog content image"); any other type renders nothing |
| BlogDetailContent.Render | src/widgets/BlogDetailContent/BlogDetailContent.tsx:154-170 | a placeholder exactly when there are no sections, else one rendered item per section, in order |
| BlogDetailContent.RenderConcat | src/widgets/BlogDetailContent/BlogDetailContent.tsx:170 | rendering two lists of sections one after the other equals rendering their concatenation |
| ProjectCard.NormalizeProjectImage | src/components/ProjectCard/ProjectCard.tsx:21-35 | a blank image gives the fallback, an external URL is kept trimmed, and any other image is trimmed and rooted |
| ProjectCard.ProjectImageIdempotent | src/components/ProjectCard/ProjectCard.tsx:21-35 | normalising twice is normalising once |
| ProjectCard.CardHref | src/components/ProjectCard/ProjectCard.tsx:18 | a present link is kept, even an empty one; a missing link gives "#" |
| ProjectCard.Render | src/components/ProjectCard/ProjectCard.tsx:37-80 | the card shows the normalised image with the title as alt, the link, the year and every tag in order |
| ContactPage.ContactForm.constructor | src/widgets/ContactPage/ContactPage.tsx:49-54 | the form starts with every field present and empty |
| ContactPage.ContactForm.HandleChange | src/widgets/ContactPage/ContactPage.tsx:114-119 | sets the named field and keeps every other field; the field set is preserved for known names |
| ContactPage.HeaderTexts | src/widgets/ContactPage/ContactPage.tsx:121-123 | the label, title and description are the given ones when non-empty, else "Book A Call", "Your Next Big Move Starts Here" and the default description; the label is computed but never drawn |
| ContactPage.RenderFormTexts | src/widgets/ContactPage/ContactPage.tsx:236-302 | the form heading is the given one or "Contact Us", and the submit text the given one or "Submit"; the terms sentence shows exactly when given, and its link exactly when a terms link is given |
| ContactPage.ProfileImage | src/widgets/ContactPage/ContactPage.tsx:57-62 | a normal path, and the team fallback when no profile image is given |
| ContactPage.MailtoHref | src/widgets/ContactPage/ContactPage.tsx:195 | `mailto:` followed by the address unchanged (RFC 6068) |
| ContactPage.TelHref | src/widgets/ContactPage/ContactPage.tsx:202 | `tel:` followed by the number with no whitespace (RFC 3966) |
| ContactPage.RemoveSpacesKeepsPlain | src/widgets/ContactPage/ContactPage.tsx:202 | a number without whitespace is unchanged |
| ContactPage.RemoveSpacesConcat | src/widgets/ContactPage/ContactPage.tsx:202 | removing whitespace distributes over concatenation |
| ContactPage.TelJoinsGroups | src/widgets/ContactPage/ContactPage.tsx:202 | "a b" dials as "tel:ab" |
| ContactPage.TelNormalised | src/widgets/ContactPage/ContactPage.tsx:202 | removing spaces first does not change the link |
| ContactPage.RenderReachOut | src/widgets/ContactPage/ContactPage.tsx:188-208 | the block shows exactly when given, headed by its heading or "Reach Out"; the email and phone links show exactly when non-empty, as the mailto and tel links |
| ContactPage.RenderSocials | src/widgets/ContactPage/ContactPage.tsx:211-231 | the block shows exactly when there is at least one link, headed by its heading or "Socials", and shows every link |
| ContactPage.RenderProfile | src/widgets/ContactPage/ContactPage.tsx:145-183 | the profile shows exactly when given, with the normalised image and the name, role and description or their defaults; its button shows exactly when there is a link, with its text or "Talk Directly To Me" |
| AboutSection.MainImage | src/widgets/AboutSection/AboutSection.tsx:70-84 | always a normal path, and `/images/6.jpg` when missing or blank |
| AboutSection.AboutItems | src/widgets/AboutSection/AboutSection.tsx:38-42 | the given items, even an empty list, else the three defaults |
| AboutSection.HeadingTexts | src/widgets/AboutSection/AboutSection.tsx:64-65 | the title and description are the given ones when non-empty, else "Passionate About Quality Design" and the default description |
| AboutSection.PartnerHeading | src/widgets/AboutSection/AboutSection.tsx:93-94 | the partner count and text are the given ones when non-empty, else "2337+" and "Our Trusted & Valuable Clients" |
| AboutSection.ClientImages | src/widgets/AboutSection/AboutSection.tsx:85-90 | the given list, else the four defaults; computed but never drawn |
| AboutSection.Button | src/widgets/AboutSection/AboutSection.tsx:67-68 | the button shows exactly when there is a link; its text is the given one when non-empty, else "MORE ABOUT US" |
| AboutSection.NormalizePartner | src/widgets/AboutSection/AboutSection.tsx:96-99 | only the image changes, and it is normalised with the partner fallback |
| AboutSection.Partners | src/widgets/AboutSection/AboutSection.tsx:44-51 | the given partners, else the six defaults, each normalised, in order |
| AboutSection.PartnersKeepAlts | src/widgets/AboutSection/AboutSection.tsx:96-99 | normalisation keeps the length, order and alt texts, and every image becomes a normal path |
| AboutSection.FallbackIsNormal | src/widgets/AboutSection/AboutSection.tsx:96-99 | the partner fallback is itself a normal path |
| AboutSection.NormalPartnersUnchanged | src/widgets/AboutSection/AboutSection.tsx:96-99 | partners whose images are already normal pass through unchanged |
| AboutSection.PartnerAlt | src/widgets/AboutSection/AboutSection.tsx:277 | the partner's own alt text, else "Partner" and its 1-based position |
| AboutSection.UnlabelledPartnersDistinct | src/widgets/AboutSection/AboutSection.tsx:277 | partners without alt text get pairwise distinct labels |
| ServiceList.TitleWords | src/widgets/ServiceList/ServiceList.tsx:152 | the title splits into at least one word |
| ServiceList.RemainingWords | src/widgets/ServiceList/ServiceList.tsx:154 | a one-word title has no remaining words; the general case is `TitleReassembles` |
| ServiceList.HighlightedWord | src/widgets/ServiceList/ServiceList.tsx:153 | the given highlighted word, else the title's first word, which holds no space |
| ServiceList.TitleReassembles | src/widgets/ServiceList/ServiceList.tsx:152-154 | the first word, a space and the remaining words give the title back; a one-word title has no remaining words |
| ServiceList.ShowsRemainingWords | src/widgets/ServiceList/ServiceList.tsx:165 | remaining words are shown only for a title with a space |
| ServiceList.Layout | src/widgets/ServiceList/ServiceList.tsx:155 | even positions show content then media; odd positions show the reverse |
| ServiceList.LayoutAlternates | src/widgets/ServiceList/ServiceList.tsx:155 | neighbouring services mirror each other, and the pattern repeats every two |
| ServiceList.MediaOf | src/widgets/ServiceList/ServiceList.tsx:215-241 | a video when set, typed `video/<type>` with `mp4` by default; else the image with the title as alt; else nothing |
| ServiceList.Cta | src/widgets/ServiceList/ServiceList.tsx:185-188 | the call to action shows exactly when it has a text, and links to the given link or "#" |
| ServiceList.RenderService | src/widgets/ServiceList/ServiceList.tsx:152-241 | the block uses its position's layout, the highlighted word, the call to action, the media and the service's items; the remaining words show exactly when non-empty |
| ServiceList.RenderedTitleReassembles | src/widgets/ServiceList/ServiceList.tsx:152-241 | without a supplied highlighted word, the block's highlighted word, a space and its remaining words give the title back; a one-word title is all highlighted |
| ServiceList.Render | src/widgets/ServiceList/ServiceList.tsx:35 | one block per service, in order; absent services are none |
| ServiceList.HighlightDoesNotChangeRemaining | src/widgets/ServiceList/ServiceList.tsx:153-154 | a supplied highlighted word replaces the first word's display but still drops the first word from the rest |
| HomeService.Or2 | src/widgets/HomeService/HomeService.tsx:45-46 | the first non-empty of two optional strings, else the fallback |
| HomeService.ArrayOr2 | src/widgets/HomeService/HomeService.tsx:47 | the first present of two optional lists, even an empty one, else none |
| HomeService.ServiceTitle | src/widgets/HomeService/HomeService.tsx:45 | the camel-case key, else the hyphenated key, else "Brand & Identity Design" |
| HomeService.ServiceDescription | src/widgets/HomeService/HomeService.tsx:46 | the camel-case key, else the hyphenated key, else the fixed default description |
| HomeService.ServicesItems | src/widgets/HomeService/HomeService.tsx:47 | the camel-case checklist when present (even empty), else the hyphenated one, else none |
| HomeService.HyphenateSpaces | src/widgets/HomeService/HomeService.tsx:192 | the result holds no whitespace, is no longer than the input, and holds only hyphens and the input's characters |
| HomeService.HyphenateKeepsPlain | src/widgets/HomeService/HomeService.tsx:192 | a text without whitespace is unchanged |
| HomeService.HyphenateJoinsWords | src/widgets/HomeService/HomeService.tsx:192 | a word, a run of whitespace and the rest become the word, one hyphen and the rest's slug |
| HomeService.Slugify | src/widgets/HomeService/HomeService.tsx:192 | a generated slug holds no whitespace |
| HomeService.SlugifyIdempotent | src/widgets/HomeService/HomeService.tsx:192 | a slug is its own slug |
| HomeService.SlugifyTwoWords | src/widgets/HomeService/HomeService.tsx:192 | "Web Design" becomes "web-design": lower-cased words joined by a hyphen |
| HomeService.ServiceLink | src/widgets/HomeService/HomeService.tsx:192 | the link, else the slug, else `/services/` followed by the slugified title |
| HomeService.GeneratedLinkHasNoSpaces | src/widgets/HomeService/HomeService.tsx:192 | a generated link holds no whitespace, whatever the title |
| HomeService.RenderCard | src/widgets/HomeService/HomeService.tsx:192-212 | the card links to its service link, shows its title and description, and shows an image exactly when it has one |
| HomeService.Render | src/widgets/HomeService/HomeService.tsx:41-288 | one card per service, in order; the panel's title and description by their fallback chains; the checklist shows every item's name exactly when there are items; the CTA link and image are the given ones when non-empty, else `/contact` and `/images/cta-cube.png` |
| WorkCaseStudy.NumberedAlt | src/widgets/WorkCaseStudy/WorkCaseStudy.tsx:184 | the alt text is the heading, a space and the 1-based position |
| WorkCaseStudy.NumberedAltsDistinct | src/widgets/WorkCaseStudy/WorkCaseStudy.tsx:149-184 | images of one section get pairwise distinct alt texts |
| WorkCaseStudy.NumberedFigures | src/widgets/WorkCaseStudy/WorkCaseStudy.tsx:176-189 | every image, in order, with its numbered alt text |
| WorkCaseStudy.ImageAreaAsWritten | src/widgets/WorkCaseStudy/WorkCaseStudy.tsx:142-199 | as drawn: no area exactly without images; the side-by-side layout exactly when chosen with three images; the single image only when no list is present |
| WorkCaseStudy.ImageArea | src/widgets/WorkCaseStudy/WorkCaseStudy.tsx:142-199 | corrected: the same, except the single image also shows when the list is empty |
| WorkCaseStudy.EmptyImagesHideImage | src/widgets/WorkCaseStudy/WorkCaseStudy.tsx:142-199 | an empty image list next to a single image draws the area with no figure in it |
| WorkCaseStudy.ImageAreaAgrees | src/widgets/WorkCaseStudy/WorkCaseStudy.tsx:142-199 | the corrected area differs from the drawn one only for an empty image list |
| WorkCaseStudy.ImageAreaShowsImages | src/widgets/WorkCaseStudy/WorkCaseStudy.tsx:142-199 | the corrected area shows a figure exactly when the section has an image; it shows the first three images side by side, or every image in the grid, or the single image |
| WorkCaseStudy.Render | src/widgets/WorkCaseStudy/WorkCaseStudy.tsx:117-205 | one block per section, in order, with its heading, title, description and the image area as drawn |
| WorkCaseStudy.RenderCorrected | src/widgets/WorkCaseStudy/WorkCaseStudy.tsx:117-205 | the same blocks with the corrected image area |
| WorkCaseStudy.RenderAgreesWithoutEmptyLists | src/widgets/WorkCaseStudy/WorkCaseStudy.tsx:142-199 | the drawn and the corrected blocks are equal unless some section has an empty image list |

## Left out

- Network and file I/O are not modelled. `src/utilities/nextFetch.ts` is not part of this model. The content server's `db.json` is a map parameter to `Resolve`, whose keys are the document's own properties (`hasOwnProperty`). Express routing, `listen` and the port are left out.
- Animations (gsap, ScrollTrigger, Swiper autoplay), scrolling, timers and layout classes are not modelled. Text written directly into the markup, such as the form's placeholders ("First Name") and the "terms & conditions" link text, is not modelled. Every text a core widget takes from its data is modelled, as a field of a view or inside the record the view passes on, with its `||` default. The exceptions are named on the lines starting `AboutSection.ClientImages`, `HomeService.Render` and `BlogDetailBanner.RenderHeader`.
- AboutSection.ClientImages: the client avatars, `clientCount` ("2566+") and `clientText` are computed but never drawn. The avatars are modelled, and their doc comment says so. The two texts are not modelled.
- Strings are ASCII. `trim`, `\s`, `toLowerCase` and `toUpperCase` are modelled over ASCII only, with no Unicode whitespace or case mapping.
- `encodeURIComponent` is a function parameter of the share-link members, so nothing about its output is assumed.
- Clipboard access, form submission (`handleSubmit`) and the browser's current URL are left out. The copied flag and the page URL are parameters.
- Pagination.Paginator.constructor: requires `itemsPerPage > 0`, because JavaScript would make `totalPages` `Infinity` or `NaN` for 0. `itemsPerPage` is also taken as a whole number: a fractional one such as 2.5, which `slice` truncates into pages of uneven length, is not modelled. The data list is fixed for the hook's lifetime. The duplicate logging effect at `src/logic/usePagination.ts:34-49` computes the same slice as `SyncCurrentData`, and its console output is left out.
- Pagination.Paginator.GoToPage: pages are whole numbers. The hook's guard lets a fractional page such as 1.5 through, and its slice then spans two pages; that case is not modelled.
- React render timing is not modelled. An effect runs when the model's method is called.
- HomeBanner.NextSlideIndex: the swiper's `realIndex` is a parameter; its range is trusted as Swiper keeps it.
- BlogDetailBanner.RenderHeader: the byline ("Written By" with `data.author`, the `|` separator and `data.date`, BlogDetailBanner.tsx:295-303), the category chips' markup and the animation are not modelled. The title heading, the description and the share row with its `data?.title || ''` share title are.
- InnerBanner.GenerateBreadcrumbs: the crumbs are specified through the character-wise label `LabelByChar`. `FormatLabel` proves this label equal to the split/capitalise/join label the source computes.
- HomeService.Render: the section label, title and description and the CTA title, description and button text are plain `||` defaults that the rendered view does not include.
- ServiceList.ShowsRemainingWords: states only the direction "shown implies the title has a space"; a title made of a word and a trailing space shows no remaining words.
- WidgetBlock.SetComponent: the table is a plain JavaScript object, so a widget type naming an inherited property (`toString`, `constructor`, `hasOwnProperty`) selects that inherited member, not the default component. The model's finite map sends those types to the default.
- WidgetBlocks.KeyFor: React turns keys into strings, so a numeric id `1` and a string id `"1"` collide, while the model keeps them apart. The `widgets = []` default replaces only an absent list; a `null` list throws and is not modelled.
- ContentServer.Response: Express also sets its own headers (the `Content-Type` and `ETag` of `res.send`, the `Not Found` text body of `res.sendStatus`). The model keeps only the headers the app sets.
- Other widgets in the repository (headers, footers, project lists, team, stats and the rest) are outside this model.

## Findings

| source | as written | input that shows it | evidently intended | confidence | as-written member | corrected member |
|---|---|---|---|---|---|---|
| src/widgets/BlogDetailBanner/BlogDetailBanner.tsx:361 | the main image always renders, because it falls back to a default image, and its alt text reads `data.title` without optional chaining | a banner rendered with no `data` | `data?.title \|\| 'Blog Image'`, as the rest of the component reads `data` | not executed | BlogDetailBanner.AltThrowsWithoutData | BlogDetailBanner.ImageAltAgrees |
| src/widgets/WorkCaseStudy/WorkCaseStudy.tsx:176-199 | the area is drawn when the image list is non-empty or a single image is set (line 142), but the grid takes any present list, even an empty one | a section with `images: []` and `image: "x.png"` | an empty image list treated as absent, so the single image shows | not executed | WorkCaseStudy.EmptyImagesHideImage | WorkCaseStudy.ImageAreaShowsImages |
