# Portfolio site core, modelled in Dafny

The site is a static Next.js portfolio of engineering projects. Under its
markup sit five pieces of logic, and this project models each of them:

- **The project records** (`data/projects.ts`): the `Project` record of
  independent optional fields and the ten shipped records of `projectsData`.
  These are `ProjectSchema` and `ProjectData`.
- **Asset-path resolution** (`utils/path.ts`): `getAssetPath` puts the
  deployment's base path in front of a site-rooted asset path. This is
  `AssetPath`.
- **The image loader** (`utils/imageLoader.ts`): `customImageLoader` leaves
  `http(s)://` URLs alone and otherwise resolves the path the same way.
  This is `ImageLoader`.
- **The "Projects" section of the home page** (`components/Projects.tsx`) is
  `ProjectList`. It resolves a fixed slug order against the data, drops
  hidden slugs and folds the list to four cards behind "See More Projects".
  Each card shows five technology chips and a "+N more" badge. The
  `showAll` toggle is the class `ProjectsSection`.
- **The project detail page** (`components/ProjectDetail.tsx`) is
  `ProjectDetail`. It covers:
  - the layout dispatch between the maze robot's bespoke page and the
    default page;
  - the guard of every section, and the section headings;
  - the "Core Concepts" chips;
  - the three keyword buckets of the maze robot's strategy cards;
  - which videos each section shows, including the first-video-by-type
    choice of the bespoke page.

  The page's three pieces of state are the class
  `ProjectDetailState.DetailState`: the image-error map, the
  enlarged-image modal and the concepts toggle.

`ShippedFacts` and `ShippedDetailFacts` carry the general lemmas over to the
ten shipped records, for example slug uniqueness, the six listed projects,
the badge texts and bucket membership.

Strings are `seq<char>`. `Array.prototype.filter` is `Seqs.Filter`.
`find` returns `Option`, with `None` standing for `undefined`. JavaScript
truthiness is written out explicitly: an empty string is falsy and an
absent key reads as `undefined`.

The base path comes from `NEXT_PUBLIC_BASE_PATH` at build time. Here it is
a parameter: `AssetPath.BasePath` turns the variable (`None` when unset)
into the string both functions receive.

`getAssetPath` (`utils/path.ts:8-17`) has no branch for absolute URLs,
unlike the image loader (`utils/imageLoader.ts:9-11`).
`AssetPath.AbsoluteUrlNotPassedThrough` shows the consequence: with no base
path, `https://x.org/a.png` becomes `/https://x.org/a.png`.

Numeric image keys such as `imageErrors[0]` become the property name
`"0"`, as JavaScript object keys do. `ProjectDetailState.PropertyName`
models this with a decimal rendering of naturals.

## Model

| member | source | states |
|---|---|---|
| AssetPath.BasePath | utils/path.ts:13 | an unset or empty variable gives no base path; otherwise the variable's value is the base path |
| AssetPath.CleanPath | utils/path.ts:10 | exactly one leading slash is removed when present, nothing otherwise |
| AssetPath.GetAssetPath | utils/path.ts:8-17 | a site-rooted path is served as base path + path; any other path as base path + "/" + path |
| AssetPath.UnderBasePath | utils/path.ts:16 | every result starts with the base path followed by a slash (just "/" without a base path) |
| AssetPath.RecoversCleanPath | utils/path.ts:10-16 | what follows the base path and its slash is exactly the cleaned path |
| AssetPath.LeadingSlashInsensitive | utils/path.ts:10-16 | for a path without a leading slash, adding one does not change the URL |
| AssetPath.DoubleSlashKept | utils/path.ts:10-16 | only one slash is stripped: a path starting with "//" is served as base path + "//" + the rest |
| AssetPath.IdempotentWithoutBase | utils/path.ts:10-16 | with no base path the result is site-rooted and a second application changes nothing |
| AssetPath.NotIdempotentWithBase | utils/path.ts:16 | with a site-rooted base path, applying the function to its own result prefixes the base path twice, so the URL changes |
| AssetPath.AbsoluteUrlNotPassedThrough | utils/path.ts:8-17 | an http(s) URL is not passed through: it is served as base path + "/" + URL |
| ImageLoader.RootedNotAbsolute | utils/imageLoader.ts:9 | a path starting with "/" never counts as an http(s) URL |
| ImageLoader.CustomImageLoader | utils/imageLoader.ts:5-20 | http(s) URLs are returned unchanged; every other source gets the URL getAssetPath gives it |
| ImageLoader.SizeIndependent | utils/imageLoader.ts:5-19 | width and quality never change the URL |
| ImageLoader.IdempotentOnUrls | utils/imageLoader.ts:9-11 | on an absolute URL a second pass changes nothing, whatever the base path |
| ImageLoader.IdempotentWithoutBase | utils/imageLoader.ts:9-17 | with no base path a second pass over any result changes nothing |
| ImageLoader.RootedUnderBase | utils/imageLoader.ts:14-17 | a site-rooted source is served as base path + source |
| ImageLoader.NotIdempotentWithBase | utils/imageLoader.ts:14-17 | with a site-rooted base path, a second pass over the loader's own output prefixes the base path again |
| Text.ToLower | components/ProjectDetail.tsx:386 | lowering keeps the length and maps each character by ASCII case folding |
| Text.ToLowerIdempotent | components/ProjectDetail.tsx:386 | lowering yields lower-case text, and lowering again changes nothing |
| Text.IncludesLowered | components/ProjectDetail.tsx:386-389 | a lower-case keyword found in the text is still found after lowering the text |
| Text.LoweredOccurrence | components/ProjectDetail.tsx:386-389 | a stretch whose lowered characters spell the keyword makes the lowered text include it |
| Text.NatToString | components/Projects.tsx:129 | a natural is rendered with at least one digit, all digits, and a leading zero only for zero |
| Text.NatToStringRoundTrip | components/Projects.tsx:129 | reading the rendered digits back gives the number |
| Text.NatToStringInjective | components/Projects.tsx:129 | distinct numbers are rendered differently |
| Seqs.Map | components/ProjectDetail.tsx:848 | one result per element, each the function applied to the element at the same position |
| Seqs.Filter | components/Projects.tsx:40-42 | the kept elements are exactly those of the input that pass the test, and there are no more of them than of the input |
| Seqs.FilterAppend | components/Projects.tsx:40-42 | filtering distributes over concatenation, so the relative order is kept |
| Seqs.FilterAll | components/Projects.tsx:40-42 | when every element passes, the list is unchanged |
| ProjectList.Slugs | components/Projects.tsx:35-37 | the slug list has one entry per project, in order |
| ProjectList.HasSlugIff | components/Projects.tsx:36 | a slug occurs among the projects exactly when it is in their slug list |
| ProjectList.FindBySlug | components/Projects.tsx:36 | the first project with the slug, or none exactly when no project has it |
| ProjectList.FindOwnSlug | components/Projects.tsx:36 | with distinct slugs, looking up a project's own slug finds that project |
| ProjectList.Present | components/Projects.tsx:36-37 | the test "some project carries this slug" |
| ProjectList.ResolveOrder | components/Projects.tsx:35-37 | projects of the data whose slugs are in the order; a slug is listed exactly when some project has it; with all slugs present the slugs are the order |
| ProjectList.ResolveOrderFilters | components/Projects.tsx:35-37 | whatever slugs are missing, the slugs of the result are the order with the missing slugs dropped, in the order's own order |
| ProjectList.ConsFirstMatch | components/Projects.tsx:36 | putting a project that `find` would return for its slug in front of a list of such projects keeps every entry a first match |
| ProjectList.ResolveOrderFirstMatch | components/Projects.tsx:35-37 | each entry of the resolved list is the first project in the data carrying its slug, the one `find` returns |
| ProjectList.Kept | components/Projects.tsx:41 | the test "the project's slug is not hidden" |
| ProjectList.NotHidden | components/Projects.tsx:41 | the same test on a slug |
| ProjectList.WithoutHidden | components/Projects.tsx:40-42 | a project stays exactly when it is in the input and its slug is not hidden; nothing hidden means nothing removed |
| ProjectList.SlugsWithoutHidden | components/Projects.tsx:40-42 | removing hidden projects removes exactly the hidden slugs from the slug list, keeping the order |
| ProjectList.VisibleProjects | components/Projects.tsx:35-42 | the slugs of the list are the order, with the slugs no project carries dropped and then the hidden slugs dropped |
| ProjectList.VisibleIff | components/Projects.tsx:35-42 | a listed project is in the data, in the order and not hidden; listed exactly when resolved and not hidden |
| ProjectList.AllOrderedVisible | components/Projects.tsx:14-42 | when every ordered slug names a project, the list shows exactly the ordered slugs, in order |
| ProjectList.OrderedNotHidden | components/Projects.tsx:14-29 | the order and the hidden set share no slug |
| ProjectList.DisplayedProjects | components/Projects.tsx:11-44 | always a prefix of the list; the whole list when unfolded, else its first min(4, n) |
| ProjectList.ButtonsConsistent | components/Projects.tsx:45-190 | never both buttons; one of them exactly when there are more than four projects; a card is left out exactly when "See More" is offered |
| ProjectList.CardChips | components/Projects.tsx:119 | a card shows the first min(5, n) technologies |
| ProjectList.MoreBadge | components/Projects.tsx:127-131 | the "+N more" badge exists exactly when there are more than five technologies |
| ProjectList.BadgeCountsTheRest | components/Projects.tsx:119-131 | the number printed in the badge is exactly the number of technologies without a chip |
| ProjectList.ProjectCard | components/Projects.tsx:99-151 | the link is "/projects/" + slug; a site-rooted image is served under the base path; a code link exactly when githubUrl is truthy |
| ProjectList.CardLinkResolves | components/Projects.tsx:135 | with distinct slugs, the detail page's lookup of a card's link finds the card's own project |
| ProjectList.ProjectsSection.constructor | components/Projects.tsx:32-42 | the section starts folded over the visible projects |
| ProjectList.ProjectsSection.SeeMore | components/Projects.tsx:165 | after "See More Projects" the whole list is on screen |
| ProjectList.ProjectsSection.ShowLess | components/Projects.tsx:182 | after "Show Less" at most four cards are on screen |
| ProjectList.SeeMoreThenShowLess | components/Projects.tsx:44-182 | unfolding then folding leaves the folded list; from the folded state, exactly the cards shown before |
| ProjectDetail.FirstVideoOfType | components/ProjectDetail.tsx:506 | none exactly when no video has the type; otherwise a video of that type with none of that type before it |
| ProjectDetail.Rank | components/ProjectDetail.tsx:226-2343 | every section has one position in the page order |
| ProjectDetail.KindAtRank | components/ProjectDetail.tsx:226-2343 | the page order lists each position's section once |
| ProjectDetail.SectionsFrom | components/ProjectDetail.tsx:226-2343 | from a position on, the rendered sections are exactly those shown, in page order |
| ProjectDetail.Sections | components/ProjectDetail.tsx:196-2343 | a section is on the page exactly when the layout dispatch and its guard render it, and in page order |
| ProjectDetail.NoRepeatedSection | components/ProjectDetail.tsx:226-2343 | no section is rendered twice |
| ProjectDetail.LayoutExclusive | components/ProjectDetail.tsx:226-603 | bespoke sections only on the maze robot's page, default sections only on the others |
| ProjectDetail.SharedFrame | components/ProjectDetail.tsx:126-2343 | overview first, back link last, "Core Concepts" exactly with a technology, "Key Achievements" exactly when non-empty and then just before the back link |
| ProjectDetail.ResultsRule | components/ProjectDetail.tsx:1496 | on a default page the results render exactly off the CNC, Whac-A-Mole and Barcelona slugs with results present or the AFSD slug |
| ProjectDetail.AtMostOneVideoSection | components/ProjectDetail.tsx:1436-2255 | at most one of "Video Demonstration", the Barcelona "Projects" grid and "Videos" renders |
| ProjectDetail.Heading | components/ProjectDetail.tsx:1068-1506 | every heading a section carries is non-empty |
| ProjectDetail.ProjectDependentHeadings | components/ProjectDetail.tsx:1068-1352 | "Engineering Process" only for the tensile test, else "Engineering Approach"; "Engineering Analysis" only for AFSD, else "Technical Implementation"; every other heading except the results' is the same on every page |
| ProjectDetail.ResultsHeading | components/ProjectDetail.tsx:1498-1506 | "Testing Results" exactly for the tensile test; no heading exactly for AFSD and MIE346 |
| ProjectDetail.ConceptChips | components/ProjectDetail.tsx:202-212 | a prefix of the technologies: all of them when unfolded or at most five, else five |
| ProjectDetail.ConceptToggleLabel | components/ProjectDetail.tsx:214-220 | the toggle exists exactly for more than five technologies and reads "Show Less" when unfolded |
| ProjectDetail.ToggleCountsTheRest | components/ProjectDetail.tsx:214-220 | the number in "Show N More" is exactly the number of chips unfolding adds |
| ProjectDetail.Bucket | components/ProjectDetail.tsx:384-434 | a bucket holds exactly the items whose lowered text includes one of its keywords |
| ProjectDetail.Titles | components/ProjectDetail.tsx:371-457 | one title per card, in order |
| ProjectDetail.StrategyBlocks | components/ProjectDetail.tsx:371-457 | three bucket cards whenever trainingDetails is present, plus a sensor card for dataPreprocessing; bucket items come from trainingDetails |
| ProjectDetail.StrategyTitles | components/ProjectDetail.tsx:371-457 | the strategy cards are titled obstacle avoidance, localization and navigation, block delivery (with training details), then sensor integration (with preprocessing) |
| ProjectDetail.MethodBlocks | components/ProjectDetail.tsx:1068-1156 | at most five method cards |
| ProjectDetail.MethodComplete | components/ProjectDetail.tsx:1068-1156 | one card per present sub-field, except component selection on Whac-A-Mole, in field order (each card sits after the cards of the fields before it), each holding the field's list under its label: the tensile test's relabelling, Whac-A-Mole's "Embedded Software Design", "Deflection and Slope" everywhere |
| ProjectDetail.WhacMethodTitles | components/ProjectDetail.tsx:1089-1100 | the Whac-A-Mole page has no "Component Selection" card |
| ProjectDetail.FiveCards | components/ProjectDetail.tsx:1068-1156 | five optional cards in a row give one card per present field, each at the position counted by the present fields before it |
| ProjectDetail.ImplementationBlocks | components/ProjectDetail.tsx:1349-1431 | at most five implementation cards |
| ProjectDetail.ImplementationComplete | components/ProjectDetail.tsx:1349-1431 | one card per present sub-field whatever the slug, in field order, each holding the field's list under its label, all five relabelled on the AFSD page |
| ProjectDetail.Sources | components/ProjectDetail.tsx:2261-2267 | one source per video, in order |
| ProjectDetail.PerformanceSources | components/ProjectDetail.tsx:846-851 | one source per video of `performanceAndResults`, in order, none without that field |
| ProjectDetail.VideoSources | components/ProjectDetail.tsx:499-2267 | only a rendered section holding a player shows videos |
| ProjectDetail.VideosFromRecord | components/ProjectDetail.tsx:499-2267 | every source a section shows is one of the record's own videos |
| ProjectDetail.BespokeVideos | components/ProjectDetail.tsx:499-566 | on the maze page only "Simulation Demonstration" (first simulation video) and "Final Results & Performance" (first operation video, only with results) show videos |
| ProjectDetail.FirstVideoOnly | components/ProjectDetail.tsx:1436-1519 | gearbox and Whac-A-Mole show only their first video, under "Video Demonstration"; the tensile test only its first video, inside its results; apart from "Performance & Results" no other section plays a video |
| ProjectDetail.EveryVideoShown | components/ProjectDetail.tsx:2177-2267 | on every other page each video is shown once, in order, in the Barcelona grid or in "Videos"; apart from "Performance & Results" no other section plays a video, so Results plays nothing outside the tensile test |
| ProjectDetail.PerformanceVideos | components/ProjectDetail.tsx:839-851 | "Performance & Results" plays every video of `performanceAndResults` once, in order, on every page but the maze robot's, and nothing when the field is absent |
| ProjectDetail.VideoTypeBadge | components/ProjectDetail.tsx:2290-2296 | a badge exactly for a typed video: "Simulation", "Operation" or "Other", each exactly for its type |
| ProjectDetailState.PropertyName | components/ProjectDetail.tsx:55-57 | a named key is its own name, a numeric key its decimal rendering |
| ProjectDetailState.PropertyNamesDistinct | components/ProjectDetail.tsx:55-57 | distinct numeric keys never share an entry |
| ProjectDetailState.ErrorsAfter | components/ProjectDetail.tsx:55-57 | error reports never drop an entry |
| ProjectDetailState.FailedAfter | components/ProjectDetail.tsx:51-57 | after a run of reports an image is failed exactly when it failed before or was reported |
| ProjectDetailState.ModalStep | components/ProjectDetail.tsx:59-111 | opening shows the image, backdrop and close clicks empty the modal, a click on the image changes nothing |
| ProjectDetailState.ModalShowsLastOpen | components/ProjectDetail.tsx:59-111 | the modal holds the last opened image unless a close came after it, in which case it is empty |
| ProjectDetailState.ClosesOrKeeps | components/ProjectDetail.tsx:91-111 | without an open, the modal keeps its image until a close, then stays empty |
| ProjectDetailState.DetailState.constructor | components/ProjectDetail.tsx:51-53 | no errors, no modal, chips folded |
| ProjectDetailState.DetailState.HandleImageError | components/ProjectDetail.tsx:55-57 | the key is set to true, every other entry kept, no failure cleared, an image is failed exactly when it has an entry, the rest of the state unchanged |
| ProjectDetailState.DetailState.OpenImageModal | components/ProjectDetail.tsx:59-61 | the modal holds this image, replacing any other |
| ProjectDetailState.DetailState.CloseImageModal | components/ProjectDetail.tsx:63-65 | the modal is empty |
| ProjectDetailState.DetailState.HandleModalEvent | components/ProjectDetail.tsx:91-111 | the modal moves as the event's step says, the rest unchanged |
| ProjectDetailState.DetailState.ToggleConcepts | components/ProjectDetail.tsx:202-220 | the concepts flag is flipped, the rest unchanged |
| ProjectDetailState.ToggleTwice | components/ProjectDetail.tsx:202-220 | toggling twice restores the flag, the chips and the label |
| ShippedFacts.SlugsDistinct | data/projects.ts:89-1095 | ten records with pairwise distinct slugs |
| ShippedFacts.ShippedVisibleList | components/Projects.tsx:14-42 | the shipped data lists exactly the six ordered slugs, in order |
| ShippedFacts.ShippedFolding | components/Projects.tsx:11-45 | six projects: "See More" is offered and the first four ordered slugs show folded |
| ShippedFacts.TechnologyCounts | data/projects.ts:97-120 | the dog-breed classifier has 7 technologies and the MEAM 5100 robot 22 |
| ShippedFacts.ShippedBadges | components/Projects.tsx:119-131 | their cards show five chips with "+2 more" and "+17 more" |
| ShippedFacts.CncOnlyTrainingDetails | data/projects.ts:1031-1042 | the CNC machine's implementation has training details and no other sub-field |
| ShippedFacts.MazeVideos | data/projects.ts:452-465 | the maze robot has exactly a simulation video followed by an operation video |
| ShippedDetailFacts.ShippedBuckets | data/projects.ts:369-381 | the MATLAB item lands in the obstacle and localization buckets, the capitalised "Obstacle avoidance" item in the obstacle bucket |
| ShippedDetailFacts.MazePagePlaysBothVideos | data/projects.ts:452-465 | the maze page shows its simulation video and, inside the results, its operation video, and no section shows any other |

## Left out

- Framer-motion animations and all styling class strings: they are cosmetic and have no behaviour.
- `AutoPauseVideo` and its `IntersectionObserver`: these are browser callbacks driven by scrolling.
- `components/ModelViewer.tsx`: it wraps an external web component.
- Contact, Hero, About, Certifications and Skills components, and the layout, page and Next.js configuration: they are presentational content, framework glue or commented out.
- The smooth scroll after "Show Less": it is a browser side effect.
- DOM event propagation: modal clicks are abstract events, and `stopPropagation` on the image appears only as "a click on the image changes nothing".
- `toLowerCase` is ASCII A–Z folding: full Unicode case mapping is not modelled, and every keyword is lower-case ASCII.
- The markup inside each section is not modelled: the individual image slots with their error keys, the metric grids, captions and figure layouts. Only whether a section renders, its heading and its card lists are.
- ShippedDetailFacts.ShippedBuckets: does not prove that the "Bluetooth communication: HC-05…" item (data/projects.ts:376) falls in no bucket. Stating it needs every character of a long string literal, which is beyond what the verifier settles here.
- ShippedFacts: does not prove that every shipped `image` and media `src` starts with "/", for the same reason. ProjectList.ProjectCard and ImageLoader.RootedUnderBase state what happens to any such path.
- The remaining fields of the shipped records (descriptions, objectives, results panels, pictures) are transcribed, but nothing is stated about their text.
- The Barcelona "Projects" grid renders an entry whose source ends in ".gif" as an image rather than a player; ProjectDetail.VideoSources counts it among the entries the grid shows.
- The base path: the environment variable is read at build time, so it is a parameter here.
