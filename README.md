# Jomboy don website — a Dafny model of its core

The site is a multilingual Next.js site with an admin area. It is available in English, Russian and Uzbek. This project models the parts that carry its logic:

- **The request middleware.** Every page path outside the uploads, API, videos and admin prefixes is given a locale prefix. The prefix comes from the `NEXT_LOCALE` cookie, or `uz` when the cookie is absent.
- **The landing header.** It switches language by rewriting the first path segment. It normalises the logo source and falls back to a brand text. It also keeps state: the language menu, a scroll flag, and the fetched site settings.
- **The six public sections** (hero, mission, products, stats, footer, news). Each turns the route language into one of three parallel text columns. There are two different rules for this:
  - a `switch` with an English default (`Locale.Pick`);
  - a plain `content[lang]` lookup with no fallback (`Locale.Index`).
- **The API route handlers.** These are modelled as the methods of one `Store.Store` class. Its fields are the database tables (maps from row id to row) and the set of files under `public/`. Each handler method states:
  - its reply, including every error status and message;
  - the whole new state, through `Snapshot()`, so every table it does not name is unchanged;
  - an invariant `Valid()`: the auto-increment counters stay above every existing id.
- **The NextAuth credentials provider and its two callbacks** (`Auth`).

Module layout:

| Module | File | What it holds |
|---|---|---|
| `Wrappers` | `wrappers.dfy` | `Option` |
| `Text` | `text.dfy` | string prefixes, `split`/`join`, decimal rendering of naturals |
| `Locale` | `locale.dfy` | the three languages and the two column-selection rules |
| `Middleware` | `middleware.dfy` | the request middleware |
| `LandingHeader` | `landing_header.dfy` | the header's helpers and its `HeaderState` class |
| `HeroSection` … `NewsSection` | `*_section.dfy` | one module per section component |
| `Uploads` | `uploads.dfy` | upload file names: sanitising, `path.extname`, the path of every upload kind |
| `Content` | `content.dfy` | row types, the multipart form, JSON payload values, replies |
| `Ordering` | `ordering.dfy` | "first row" (`findFirst`) and newest-first ordering |
| `Store` | `store.dfy` | the update functions of each handler and the `Store` class |
| `Auth` | `auth.dfy` | `authorize`, the `jwt` and `session` callbacks |

Things outside the program become parameters of the methods that use them:

- **Clock readings (`Date.now()`).** These are `now`/`createdAt` numbers. The admin hero POST reads the clock twice, so it takes two of them.
- **Outcomes of file-system and transcoder calls.** These are booleans (`writeOk`, `VideoIo`, `LogoIo`). A failed write leaves the file set unchanged.
- **The server session (`getServerSession`).** This is the flag `hasSession`.
- **bcrypt's `compare`.** This is a function parameter `passwordMatches`.

Rows are found in the following way:

- `findFirst()` with no ordering is read as the row with the least id (`Ordering.FirstId`).
- `findMany({orderBy: {createdAt: 'desc'}})` is a selection loop. It yields every row once, newest first.

## Model

| member | source | states |
|---|---|---|
| Locale.Parse | src/middleware.ts:4 | Only "en", "ru" and "uz" are read as languages, and a language reads back as its own code |
| Locale.ParseCode | src/middleware.ts:4 | Every language's code is one of the supported codes and parses back to that language |
| Locale.RouteLang | src/components/sections/Hero.tsx:23 | `params.lang \|\| default`: an absent or empty route parameter gives the component's default code, and any other value is kept as given |
| Locale.Pick | src/components/sections/Hero.tsx:33-42 | The `switch` projection: "ru" and "uz" select their column; every other code, including "en" and an absent code, selects the default column |
| Locale.Index | src/components/sections/Mission.tsx:25-27 | `content[lang]` has a value exactly for a supported code, and that value is the code's column; there is no fallback |
| Locale.PickIndexAgree | src/components/sections/Mission.tsx:25-27 | On a supported code the lookup and the switch projection select the same column |
| Middleware.CookieLocale | src/middleware.ts:28 | The cookie's locale when it is present and non-empty, otherwise the default `uz`; never empty |
| Middleware.Skipped | src/middleware.ts:11-18 | The four skipped prefixes, each with its trailing '/'; its properties are stated by `Middleware.SkippedPrefixPasses` and `Middleware.SkipNeedsTrailingSlash` |
| Middleware.HasLocale | src/middleware.ts:21-25 | `/<locale>/…` or exactly `/<locale>` for a supported locale; its properties are stated by `Middleware.LocalePathPasses` and `Middleware.LookAlikesRedirect` |
| Middleware.Decide | src/middleware.ts:7-31 | A request passes exactly when its path starts with a skipped prefix or with a locale segment. Otherwise it is redirected to `"/" + locale + pathname` |
| Middleware.SkippedPrefixPasses | src/middleware.ts:11-18 | Every path under `/uploads/`, `/api/`, `/videos/` or `/admin/` passes, whatever the cookie |
| Middleware.LocalePathPasses | src/middleware.ts:21-25 | `/en`, `/ru`, `/uz` and every path below them pass |
| Middleware.RedirectShape | src/middleware.ts:28-30 | A redirect target starts with `"/" + locale` and ends with the original path, which it strictly extends |
| Middleware.RedirectTargetPasses | src/middleware.ts:21-30 | No redirect loop: for a path starting with "/", and a cookie that is absent, empty or supported, the target passes on the next request |
| Middleware.LookAlikesRedirect | src/middleware.ts:21-25 | `/english` and `/uzb` are not locale paths and are redirected |
| Middleware.SkipNeedsTrailingSlash | src/middleware.ts:11-18 | `/admin` and `/api` without a trailing slash are not skipped and are redirected |
| Middleware.OtherInitialRedirects | src/middleware.ts:7-31 | A path whose first character after "/" begins none of the skipped prefixes and none of the locale codes is always redirected under the cookie locale |
| Middleware.UnsupportedCookieRedirectsAgain | src/middleware.ts:28-30 | A cookie holding an unsupported code gives a target that is itself redirected again |
| LandingHeader.LanguageLabel | src/components/landing/LandingHeader.tsx:104 | `LANGUAGES[currentLang]` is defined exactly for the three supported codes |
| LandingHeader.LanguageLabelsTotal | src/components/landing/LandingHeader.tsx:14-18 | Each language is labelled with its upper-cased code |
| LandingHeader.CurrentLangDefault | src/components/landing/LandingHeader.tsx:27 | Without a route parameter the header's language is `uz`, labelled "UZ" |
| LandingHeader.PathWithoutLang | src/components/landing/LandingHeader.tsx:51 | The path after its first segment (`split('/').slice(2).join('/')`); `LandingHeader.SwitchKeepsRest` states that switching keeps it |
| LandingHeader.SwitchPath | src/components/landing/LandingHeader.tsx:49-55 | The pushed path `/<lang>` plus `/<rest>` when the rest is non-empty; its properties are stated by `LandingHeader.SwitchKeepsRest`, `LandingHeader.SwitchSingleSegment`, `LandingHeader.SwitchStartsWithLang` and `LandingHeader.SwitchTwice` |
| LandingHeader.SwitchKeepsRest | src/components/landing/LandingHeader.tsx:49-55 | Switching language replaces the first path segment and keeps the rest of the path unchanged |
| LandingHeader.SwitchSingleSegment | src/components/landing/LandingHeader.tsx:51-52 | A path of one segment switches to exactly `"/" + lang` |
| LandingHeader.SwitchStartsWithLang | src/components/landing/LandingHeader.tsx:51-52 | The pushed path always starts with `"/" + lang` |
| LandingHeader.SwitchTwice | src/components/landing/LandingHeader.tsx:49-55 | Switching twice gives the same path as switching once to the final language |
| LandingHeader.LogoSrc | src/components/landing/LandingHeader.tsx:68 | The logo source always starts with "/": a leading "/" is kept, and one is added otherwise |
| LandingHeader.LogoSrcIdempotent | src/components/landing/LandingHeader.tsx:68 | Normalising a logo source twice is the same as normalising it once |
| LandingHeader.BrandOf | src/components/landing/LandingHeader.tsx:66-74 | The home link is a logo image exactly when the settings hold a non-empty logo. Its alt text is the company name or "Company Logo". Otherwise the link is the text "Jomboy don" |
| LandingHeader.HeaderState.constructor | src/components/landing/LandingHeader.tsx:21-23 | The header starts unscrolled, without settings and with the language menu closed |
| LandingHeader.HeaderState.ToggleLangMenu | src/components/landing/LandingHeader.tsx:102 | The language button flips the menu flag and changes nothing else |
| LandingHeader.HeaderState.SwitchLanguage | src/components/landing/LandingHeader.tsx:49-55 | Pushes the rewritten path, closes the menu, and keeps the rest of the state |
| LandingHeader.HeaderState.OnScroll | src/components/landing/LandingHeader.tsx:31 | The scrolled flag is `scrollY > 50`; the rest of the state is kept |
| LandingHeader.HeaderState.OnSettingsFetched | src/components/landing/LandingHeader.tsx:39-47 | A successful fetch stores the settings; a failed one changes nothing |
| HeroSection.BackgroundOf | src/components/sections/Hero.tsx:46-65 | A video when a non-empty video path is given, otherwise the fallback image `/images/hero-bg.jpg` |
| HeroSection.Render | src/components/sections/Hero.tsx:72-78 | The title, subtitle and call-to-action are each the `switch` projection of their column for the route language |
| HeroSection.RenderOneLanguage | src/components/sections/Hero.tsx:33-42 | "ru" and "uz" show all three texts in that language; every other value shows all three default texts |
| MissionSection.ImageSrc | src/components/sections/Mission.tsx:38-40 | An `http…` image is used as it is. Any other image is served under `/api/images/`, with a "/" inserted when the image lacks one |
| MissionSection.ImageSrcSlashInsensitive | src/components/sections/Mission.tsx:38-40 | `x` and `/x` give the same proxied source |
| MissionSection.Render | src/components/sections/Mission.tsx:29-55 | Nothing is rendered exactly when the image is missing or empty. Otherwise: the proxied source; alt text and title from `content[lang]`; text from `content[lang]` |
| MissionSection.RenderTexts | src/components/sections/Mission.tsx:23-27 | An absent parameter shows English; an unsupported code shows no title and no text |
| ProductsSection.LocalizedNameDefault | src/components/sections/Products.tsx:45-54 | An absent parameter gives the default name; "ru" and "uz" give `name_ru` and `name_uz` |
| ProductsSection.LocalizedName | src/components/sections/Products.tsx:45-54 | The `switch` over `name_ru`, `name_uz` and `name`; `ProductsSection.LocalizedNameDefault` states its cases |
| ProductsSection.CardOf | src/components/sections/Products.tsx:67-92 | The heading is the localized name. The image is shown exactly when the product has a non-empty image URL, with that name as alt text; otherwise a placeholder |
| ProductsSection.Cards | src/components/sections/Products.tsx:67-92 | One card per product, in the order fetched |
| ProductsSection.ProductsState.constructor | src/components/sections/Products.tsx:24-25 | The grid starts empty and loading |
| ProductsSection.ProductsState.OnFetched | src/components/sections/Products.tsx:33-43 | A successful fetch stores the list; loading ends on success and on failure |
| ProductsSection.ProductsState.View | src/components/sections/Products.tsx:56-92 | The loading placeholder shows exactly while loading; afterwards the grid holds the cards of the fetched products, one per product and in order |
| StatsSection.FlattenAll | src/components/sections/Stats.tsx:27-33 | Flattening keeps the length and order of the supplied statistics |
| StatsSection.Flatten | src/components/sections/Stats.tsx:27-33 | One statistic with the nested labels moved into flat columns; `StatsSection.FlattenAll` and `StatsSection.FlattenThenLabel` state its properties |
| StatsSection.Label | src/components/sections/Stats.tsx:64 | "ru" gives `labelRu`, "uz" gives `labelUz`, and every other code gives the default label |
| StatsSection.FlattenThenLabel | src/components/sections/Stats.tsx:25-38 | Flattening and then projecting equals the language switch over the nested labels |
| StatsSection.StatsState.constructor | src/components/sections/Stats.tsx:20-21 | Loading starts exactly when no data is supplied |
| StatsSection.StatsState.RunEffect | src/components/sections/Stats.tsx:25-38 | Supplied data is flattened into the state and loading ends, with no fetch. Without data a fetch starts |
| StatsSection.StatsState.OnFetched | src/components/sections/Stats.tsx:40-50 | A successful fetch stores the rows; loading ends either way |
| StatsSection.StatsState.View | src/components/sections/Stats.tsx:52-67 | Nothing while loading; otherwise one entry per statistic, with its value as given and its label projected |
| StatsSection.Entries | src/components/sections/Stats.tsx:58-67 | One entry per statistic, in order, with its value and its projected label |
| StatsSection.SuppliedDataRendering | src/components/sections/Stats.tsx:25-67 | With data supplied, entry i shows statistic i's value and its label in the route language |
| FooterSection.LocalizedText | src/components/sections/Footer.tsx:39-44 | "" for missing content and for an unsupported code. Otherwise the selected entry when it is present and non-empty, and "" when it is not |
| FooterSection.LocalizedTextNoFallback | src/components/sections/Footer.tsx:39-44 | A non-empty entry is shown as it is; an empty one gives "" and never another language's text |
| FooterSection.PhoneViewOf | src/components/sections/Footer.tsx:121-135 | The number is shown with a `tel:` link and a localized department. The description appears exactly when the phone has one |
| FooterSection.PhoneViews | src/components/sections/Footer.tsx:121-135 | One contact block per phone, in order |
| FooterSection.IconFor | src/components/sections/Footer.tsx:150-173 | A network's icon appears exactly when its link is truthy, and it links there |
| FooterSection.LinkOf | src/components/sections/Footer.tsx:150-173 | The social column an icon reads; `FooterSection.Icons` states that each icon links to it |
| FooterSection.Rank | src/components/sections/Footer.tsx:150-173 | The position of a network's icon in the markup; `FooterSection.Icons` states that icons follow it |
| FooterSection.Icons | src/components/sections/Footer.tsx:150-173 | At most four icons, in the markup's order (Instagram, Telegram, YouTube, Facebook). Each links to its own network's column, which is non-empty |
| FooterSection.IconsIffTruthy | src/components/sections/Footer.tsx:150-173 | Each network has an icon in the footer if and only if its link is truthy |
| FooterSection.Render | src/components/sections/Footer.tsx:121-173 | One contact block per phone, in order; the address projected through `getLocalizedContent`; the icons of the truthy social links |
| NewsSection.CardOf | src/components/sections/News.tsx:57-86 | Title and text come from `content[lang]`. The image is shown exactly when the item has a non-empty image URL, with the title as alt text; otherwise a placeholder |
| NewsSection.Render | src/components/sections/News.tsx:57-86 | One card per item, in order |
| NewsSection.CardLanguage | src/components/sections/News.tsx:31-35 | An absent parameter shows the English title; an unsupported code shows no title and no text |
| Uploads.Sanitize | src/app/api/admin/mission-settings/route.ts:78 | `replace(/[^a-zA-Z0-9.-]/g, '_')`: same length; each letter, digit, '.' or '-' is kept, and every other character becomes '_' |
| Uploads.SanitizeSafe | src/app/api/admin/landing-settings/route.ts:48 | A sanitised name holds only letters, digits, '.', '-' and '_' |
| Uploads.SanitizeIdempotent | src/app/api/admin/landing-settings/route.ts:48 | Sanitising twice is the same as sanitising once |
| Uploads.SanitizeKeepsSafeNames | src/app/api/admin/mission-settings/route.ts:78 | A name made only of allowed characters is kept unchanged |
| Uploads.MissionImagePath | src/app/api/admin/mission-settings/route.ts:78-84 | `/images/mission/mission-<now>-<sanitised name>`; `Store.MissionUploadWins` states that an upload is stored there |
| Uploads.LandingVideoPath | src/app/api/admin/landing-settings/route.ts:48-54 | `/videos/hero-<now>-<sanitised name>`; `Store.LandingVideoUpdate` states that an upload is stored there |
| Uploads.HeroVideoPath | src/app/api/admin/landing-settings/hero-settings/route.ts:37-43 | `/videos/hero-<now>-<name>`, unsanitised; `Store.HeroUploadUrl` and `Uploads.HeroVideoPathsAgreeOnSafeNames` state its properties |
| Uploads.TempVideoPath | src/app/api/admin/hero-settings/route.ts:61 | `/uploads/videos/temp-<now>.mp4`; `Uploads.TempIsNotCompressed` states that it never equals the transcoder's output |
| Uploads.CompressedVideoPath | src/app/api/admin/hero-settings/route.ts:62 | `/uploads/videos/hero-<now>.mp4`; `Uploads.TempIsNotCompressed` states that it never equals the temporary file |
| Uploads.LogoPath | src/app/api/admin/site-settings/route.ts:46 | `/uploads/logo-<now><extension>`; `Uploads.LogoPathShape` states its shape. The public route builds the same name at `src/app/api/site-settings/route.ts:15` |
| Uploads.ProductImagePath | src/app/api/products/route.ts:30-36 | `/images/products/product-<now>-<name>`; `Store.ProductImageUrl` states that an upload is stored there |
| Uploads.UploadsPath | src/lib/uploadImage.ts:10-17 | `/uploads/<now>-<name>`, which the admin product POST also builds (`src/app/api/admin/products/route.ts:39-54`); `Store.UploadUrl` states that an upload is stored there |
| Uploads.LastIndex | src/app/api/admin/site-settings/route.ts:46 | The position of the last occurrence of a character, or none exactly when it does not occur |
| Uploads.TrimSlashes | src/app/api/admin/site-settings/route.ts:46 | A prefix of the path that does not end in '/', with only '/' characters cut off |
| Uploads.TrimSlashesKeepsBareNames | src/app/api/admin/site-settings/route.ts:46 | A path without '/' has nothing to trim |
| Uploads.TrimSlashesTrailing | src/app/api/admin/site-settings/route.ts:46 | One more trailing '/' trims to the same path |
| Uploads.Basename | src/app/api/admin/site-settings/route.ts:46 | The last component that `path.extname` reads: it contains no '/', ends the trimmed path, and is the whole path when there is no '/' |
| Uploads.BasenameOfTrimmed | src/app/api/admin/site-settings/route.ts:46 | The last component depends only on the path with its trailing '/' characters removed |
| Uploads.BasenameOfPath | src/app/api/admin/site-settings/route.ts:46 | The last component of `dir/name` is `name`, for any directory part |
| Uploads.ExtName | src/app/api/admin/site-settings/route.ts:46 | `path.extname`: non-empty exactly when the last component has a dot that is not its first character and the component is not "..". It then runs from that component's last dot to its end, so it starts with its only dot and holds no '/'. A path without a dot has none |
| Uploads.BareExtName | src/app/api/admin/site-settings/route.ts:46 | For a file name without '/', the extension is everything from its last dot, when that dot is not the first character |
| Uploads.ExtNameOfPath | src/app/api/admin/site-settings/route.ts:46 | Directories in front of a file name never change its extension, even when they contain dots |
| Uploads.ExtNameIgnoresTrailingSlash | src/app/api/admin/site-settings/route.ts:46 | A trailing '/' never changes the extension |
| Uploads.ExtNameExamples | src/app/api/site-settings/route.ts:15 | `logo.png` gives `.png` |
| Uploads.ExtNameLastDot | src/app/api/site-settings/route.ts:15 | `archive.tar.gz` gives `.gz` |
| Uploads.ExtNameNone | src/app/api/site-settings/route.ts:15 | `README` and `.env` give "" |
| Uploads.ExtNameLastComponent | src/app/api/site-settings/route.ts:15 | `a.b/c` gives "": the dot of a directory is no extension |
| Uploads.TempIsNotCompressed | src/app/api/admin/hero-settings/route.ts:61-62 | The temporary upload and the transcoded video never share a path, whatever the two clock readings |
| Uploads.HeroVideoPathsAgreeOnSafeNames | src/app/api/admin/landing-settings/hero-settings/route.ts:37 | For a name that needs no sanitising, the two hero upload routes store the same path |
| Uploads.LogoPathShape | src/app/api/admin/site-settings/route.ts:46-66 | A logo path starts with `/uploads/logo-<timestamp>` and ends with the upload's extension |
| Ordering.LatestOf | src/app/api/products/route.ts:8-10 | The selection step returns an element of the set whose key is the largest |
| Ordering.OrderByDesc | src/app/api/products/route.ts:8-10 | Every id exactly once, in order of non-increasing key |
| Ordering.Least | src/app/api/admin/hero-settings/route.ts:9 | A non-empty id set has a least element |
| Ordering.FirstId | src/app/api/admin/hero-settings/route.ts:9 | `findFirst()` picks an existing row whose id is the least |
| Content.TextOr | src/app/api/admin/mission-settings/route.ts:58-70 | `formData.get(k) \|\| fallback`: the submitted text when it is present and non-empty, the fallback otherwise |
| Content.TextOrNull | src/app/api/admin/mission-settings/route.ts:85-90 | A present, non-empty text, and null otherwise |
| Content.Assign | src/app/api/site-settings/footer/route.ts:17-30 | A JSON `undefined` keeps the column, `null` clears it, and a string sets it |
| Store.MapFields | src/app/api/admin/mission-settings/route.ts:58-70 | The `forEach` over the field mappings gives every mapped column the submitted text or "", and no other column |
| Store.MissionTextsOf | src/app/api/admin/mission-settings/route.ts:58-70 | The mission texts read from the form are the mapped fields, each defaulting to "" |
| Store.HeroTextsOf | src/app/api/admin/landing-settings/route.ts:25-40 | The hero texts read from the form are the mapped fields, each defaulting to "" |
| Store.MissionImageUpdate | src/app/api/admin/mission-settings/route.ts:73-90 | An upload gives the sanitised stored path. Without one, a non-empty `currentMissionImage` is used, and null otherwise |
| Store.MissionAfterPut | src/app/api/admin/mission-settings/route.ts:85-100 | Row 1 after the upsert: updated texts and image, or created from them; `Store.MissionImageKept`, `Store.MissionPutIdempotent` and `Store.Store.PutMissionSettings` state its properties |
| Store.MissionUploadWins | src/app/api/admin/mission-settings/route.ts:73-84 | An uploaded image wins over `currentMissionImage` and is stored under `/images/mission/mission-<now>-<sanitised name>` |
| Store.MissionImageKept | src/app/api/admin/mission-settings/route.ts:85-100 | Without an upload and without `currentMissionImage`, the upsert keeps the stored image |
| Store.MissionPutIdempotent | src/app/api/admin/mission-settings/route.ts:52-110 | Repeating a mission update without an upload changes nothing further |
| Store.LandingVideoUpdate | src/app/api/admin/landing-settings/route.ts:43-60 | An upload gives the sanitised `/videos/hero-<now>-…` path. Without one, a non-empty `currentVideo` is used, and null otherwise |
| Store.AdminLandingAfterPut | src/app/api/admin/landing-settings/route.ts:55-70 | Row 1 after the admin landing upsert; `Store.OmittedVideo` and `Store.LandingPutsAgree` state its properties |
| Store.LandingRow | src/app/api/landing-settings/route.ts:7-18 | The public landing PUT stores a background video exactly when a non-empty one is submitted |
| Store.LandingPutsAgree | src/app/api/landing-settings/route.ts:3-37 | Without an upload, and with a `currentVideo` equal to `backgroundVideo`, the admin and public landing PUTs store the same row |
| Store.OmittedVideo | src/app/api/admin/landing-settings/route.ts:55-70 | When no video is given at all, the public PUT clears it and the admin PUT keeps the stored one |
| Store.HeroColumns | src/app/api/admin/landing-settings/hero-settings/route.ts:47-61 | The update can be built exactly when all nine text fields are present. Each of the nine columns is its own field's text, verbatim |
| Store.HeroUploadUrl | src/app/api/admin/landing-settings/hero-settings/route.ts:32-44 | A URL exactly for a non-empty `backgroundVideo` upload: `/videos/hero-<now>-<name>` |
| Store.TempCleanedUp | src/app/api/admin/hero-settings/route.ts:72-102 | The temporary file is gone after a replacement that went through, and after a failed one whose clean-up succeeded |
| Store.ReplaceVideo | src/app/api/admin/hero-settings/route.ts:56-103 | The file effects of the temporary-file and transcoder replacement; `Store.TempCleanedUp` and `Store.ReplaceVideoOutcome` state its properties |
| Store.ReplaceVideoOutcome | src/app/api/admin/hero-settings/route.ts:56-103 | A replacement that went through names the transcoded file, which exists unless the old video had that very path, and the old video is removed when its deletion succeeded. A failed one keeps the old name and every earlier file except the temporary one |
| Store.SiteSettingsUpdateIsPartial | src/app/api/site-settings/route.ts:61-73 | The public site-settings upsert changes only the logo (when one was uploaded) and the company name (when non-empty) |
| Store.SiteSettingsAfterPut | src/app/api/site-settings/route.ts:61-73 | The row the upsert writes: row 1 with the logo and name replaced when given, or a new row with the logo and the name or "Jomboy don"; `Store.SiteSettingsUpdateIsPartial` states its update case |
| Store.ReplaceLogoOutcome | src/app/api/admin/site-settings/route.ts:42-72 | A logo replacement that went through names a file that exists. A failed write after the old logo's removal leaves the row naming a removed file |
| Store.ReplaceLogo | src/app/api/admin/site-settings/route.ts:42-67 | The file effects of the mkdir, remove-old, write sequence; `Store.ReplaceLogoOutcome` states its properties |
| Store.FooterKeepsBranding | src/app/api/site-settings/footer/route.ts:17-30 | The footer update never touches the company name or the logo |
| Store.FooterRow | src/app/api/site-settings/footer/route.ts:17-30 | Row 1 with each address and social column assigned from the payload; `Store.FooterKeepsBranding` states what it leaves alone |
| Store.PhoneFrom | src/app/api/site-settings/footer/route.ts:40-55 | A created phone belongs to the settings row and keeps the number. Each description is null exactly when it was not submitted as a non-empty string |
| Store.Created | src/app/api/site-settings/footer/route.ts:40-55 | The phones the loop creates, keyed by their ids; `Store.CreatedRows` states their ids and rows |
| Store.CreatedRows | src/app/api/site-settings/footer/route.ts:40-55 | The phones created in sequence take consecutive ids, the j-th built from the j-th payload phone |
| Store.FooterPhonesReplaced | src/app/api/site-settings/footer/route.ts:33-55 | After the footer update, the phones linked to the row are exactly the payload's, in order, and every other phone is unchanged |
| Store.ApplyStats | src/app/api/stats/route.ts:19-31 | The statistics after the transaction's updates, in list order; `Store.ApplyStatsKeys`, `Store.ApplyStatsUnlisted` and `Store.ApplyStatsLastWins` state its properties |
| Store.ApplyStatsKeys | src/app/api/stats/route.ts:19-31 | When every listed id exists, the statistics update keeps the set of ids |
| Store.ApplyStatsUnlisted | src/app/api/stats/route.ts:19-31 | A statistic not in the list keeps its row |
| Store.ApplyStatsLastWins | src/app/api/stats/route.ts:19-31 | A listed statistic ends with the values of its last occurrence in the list |
| Store.ProductImageUrl | src/app/api/products/route.ts:25-37 | An image URL exactly for a non-empty `image` upload: `/images/products/product-<now>-<name>` |
| Store.PublicProductRow | src/app/api/products/route.ts:42-56 | A row can be created exactly when `name` is present. Every column is stated: `name` verbatim; the price text; `name_ru`, `name_uz` and the three categories as the field or ""; the three descriptions as the field or null; the image URL and creation time |
| Store.PublicProductDefaults | src/app/api/products/route.ts:42-56 | With only a name (and a price), the other text columns are "" and the descriptions are null |
| Store.UploadUrl | src/lib/uploadImage.ts:4-21 | A URL exactly for an `image` upload: `/uploads/<now>-<name>` |
| Store.AdminProductRow | src/app/api/admin/products/route.ts:57-64 | A row can be created exactly when `name` is present. Every column is stated: name, price, image URL, creation time and the description (or null); "" for the other names and the categories; null for the other descriptions |
| Store.NewsRowOf | src/app/api/news/route.ts:15-38 | A news row can be created exactly when the six text fields are present. Each title and content column is its own field, verbatim, with the image URL and creation time |
| Store.NewestFirst | src/app/api/news/route.ts:50-66 | Every row exactly once, newest first |
| Store.Store.GetMissionSettings | src/app/api/admin/mission-settings/route.ts:26-50 | The first mission row, or the built-in default content when there is none |
| Store.Store.PutMissionSettings | src/app/api/admin/mission-settings/route.ts:52-110 | A failed image write gives 500 and changes nothing. Otherwise row 1 becomes the mapped texts with the new or kept image, and the uploaded file is added. Nothing else changes |
| Store.Store.GetLandingSettings | src/app/api/admin/landing-settings/route.ts:5-17 | The first hero row, or null when there is none |
| Store.Store.GetHeroSettings | src/app/api/admin/hero-settings/route.ts:7-25 | The first hero row, or 404 "Hero settings not found"; the GET of `src/app/api/admin/landing-settings/hero-settings/route.ts` (lines 6-24) is the same handler |
| Store.Store.PutAdminLandingSettings | src/app/api/admin/landing-settings/route.ts:19-80 | A failed video write gives 500 and changes nothing. Otherwise row 1 becomes the mapped texts with the new or kept video. Nothing else changes |
| Store.Store.PutLandingSettings | src/app/api/landing-settings/route.ts:3-37 | Row 1 becomes the submitted texts and video, the reply is success, and nothing else changes |
| Store.Store.PostLandingHeroSettings | src/app/api/admin/landing-settings/hero-settings/route.ts:26-71 | A failed write gives 500 and changes nothing. A missing row 1 or text field gives 500 after the file is written. Otherwise row 1 is replaced |
| Store.Store.PostHeroSettings | src/app/api/admin/hero-settings/route.ts:27-119 | 404 without a hero row. An upload goes through the temporary-file and transcoder replacement, and its file effects persist even when the update then fails. The first row takes the texts and the video only when everything succeeds |
| Store.Store.GetSiteSettings | src/app/api/site-settings/route.ts:28-48 | The first settings row, or the built-in branding (no logo, "Jomboy don") |
| Store.Store.UpsertSiteSettings | src/app/api/site-settings/route.ts:61-73 | Row 1 is overwritten when it exists. Otherwise the `create`, which names no id, adds the row under the next auto-increment id and advances the counter. Nothing else changes |
| Store.Store.PutSiteSettings | src/app/api/site-settings/route.ts:50-83 | A failed logo write gives 500 and changes nothing. Otherwise row 1 is updated (only the logo and the company name), or a new row is created under the next auto-increment id when row 1 is missing; the logo file is added |
| Store.Store.GetAdminSiteSettings | src/app/api/admin/site-settings/route.ts:6-24 | The first settings row, or 404 "Site settings not found" |
| Store.Store.UpdateSiteSettings | src/app/api/admin/site-settings/route.ts:69-72 | An existing row is replaced and nothing else changes |
| Store.Store.PostAdminSiteSettings | src/app/api/admin/site-settings/route.ts:26-82 | 404 without a row. A logo goes through the mkdir, remove-old, write replacement; the first row names the new logo only when the replacement went through |
| Store.Store.PutFooter | src/app/api/site-settings/footer/route.ts:7-65 | 401 without a session, and 500 without row 1. Otherwise: the columns are assigned; the row's phones are deleted; the payload phones are created under fresh ids. A missing phone list fails after the deletion |
| Store.Store.CreatePhones | src/app/api/site-settings/footer/route.ts:40-55 | The loop adds exactly the created phones under consecutive fresh ids and changes nothing else |
| Store.Store.GetFooter | src/app/api/site-settings/footer/route.ts:67-87 | The first settings row with its phones, or 404 "Settings not found" |
| Store.Store.GetStats | src/app/api/stats/route.ts:4-12 | All statistics rows |
| Store.Store.PutStats | src/app/api/stats/route.ts:14-38 | The transaction applies every update when each listed id exists. Otherwise it rolls back to 500 and nothing changes |
| Store.Store.GetProducts | src/app/api/products/route.ts:6-18 | Every product exactly once, newest first; the admin listing in `src/app/api/admin/products/route.ts` (lines 6-23) is the same query |
| Store.Store.PostProduct | src/app/api/products/route.ts:20-66 | A failed image write gives 500 and changes nothing. A missing name gives 500 after the file is written. Otherwise the product is created under a fresh id |
| Store.Store.PostAdminProduct | src/app/api/admin/products/route.ts:25-74 | The same as the public POST, with the upload under `/uploads/` and the admin column choice |
| Store.Store.PostNews | src/app/api/news/route.ts:7-48 | 401 without a session. A failed image write gives 500 and changes nothing; missing text fields give 500 after the upload. Otherwise the item is created under a fresh id |
| Store.Store.GetNews | src/app/api/news/route.ts:50-66 | Every news item exactly once, newest first |
| Auth.Authorize | src/lib/auth.ts:13-39 | A user exactly when both credentials are non-empty, the username exists, and the password matches its hash |
| Auth.Filled | src/lib/auth.ts:14-16 | A credential is usable when sent and non-empty; `Auth.MissingCredentialsRefused` states that anything else is refused |
| Auth.KeyedByUsername | src/lib/auth.ts:18-26 | The unique-username lookup: each admin is stored under its own username; `Auth.AcceptedUser` relies on it |
| Auth.MissingCredentialsRefused | src/lib/auth.ts:14-16 | Missing or empty credentials are refused whatever the table holds |
| Auth.AcceptedUser | src/lib/auth.ts:34-38 | An accepted user is the admin stored under the submitted username. Its id string is all digits and reads back as the admin's id |
| Auth.SameIdSameAdmin | src/lib/auth.ts:34-38 | Two accepted sign-ins with the same id string are sign-ins of the same admin |
| Auth.Jwt | src/lib/auth.ts:46-52 | On sign-in the token takes the user's id and username; otherwise it is returned unchanged |
| Auth.SessionOf | src/lib/auth.ts:53-59 | With a token, the session user takes its id and username and keeps the name; without a token the user is unchanged |
| Auth.SignIn | src/lib/auth.ts:13-59 | The session carries the admin's id and username exactly when `authorize` accepted |

## Left out

- File contents and byte sizes are not modelled. An upload is its name and a size used only for the `size > 0` checks. `public/` is a set of paths, and every file-system or transcoder call is an outcome flag.
- The transcoder (`src/lib/video.ts`) is only success or failure. A failed transcode is assumed to leave no output file. Its options and its output format are not modelled.
- Every `Date.now()` is a parameter. That two uploads in the same millisecond can clash is not excluded.
- Product prices (`parseFloat`, `toLocaleString`) are carried as opaque text, and news dates (`date-fns` formatting, `src/components/sections/News.tsx:37-45`) are not rendered.
- The middleware's `matcher` configuration (`src/middleware.ts:33-37`) is the framework's own path filter and is not modelled.
- React rendering, the scroll listener's registration and the fetch effects are reduced to the state updates they make. Markup and styling are not modelled.
- Uploads.Sanitize works on Dafny characters, not UTF-16 code units. A name containing a surrogate pair therefore gets one '_' where the site writes two.
- `path.join` normalisation is not modelled. Paths are built by concatenation, which agrees for the plain names used.
- ORM and JSON exceptions are modelled only where the handler's data makes them certain: a required column given null, a missing row for an `update`, and the stats transaction. Other cases are not modelled: a payload of the wrong shape, a file under a text key, and database failures.
- The Prisma schema is not part of this model. Required text columns are taken to be the ones the seed always fills, and columns a create leaves out are taken to default to "" or null.
- `findFirst()` without an ordering is taken to return the row with the least id.
- Store.Store.PutStats: statistic ids are integers in the store and decimal strings in the section component; the conversion between them is not modelled.
- `uploadImage` in `src/app/api/admin/mission-settings/route.ts:9-24` is never called and is left out.
- Store.Store.PostAdminProduct: the ignored `mkdir` failure (`src/app/api/admin/products/route.ts:43-47`) is not a separate outcome; the write flag covers it.
- The static dictionaries under `src/i18n`, the seed script, the admin pages, the image proxy and the remaining routes (activities, product by id, admin stats) are not part of this model.
- bcrypt's `compare` is a parameter and `getServerSession` is the flag `hasSession`. Token signing, cookies and the NextAuth flow around the callbacks are not modelled.
